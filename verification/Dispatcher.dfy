/** The job dispatcher: who holds a job between submission and its verdict.

    One event is a stretch of code between two awaits, or one database
    transaction.  The dispatch loop is a single task, so the job it is working
    on is one field, `hand`; everything else (workers, their reports, users,
    the restart) interleaves freely with it.  Protocol 4 dispatch keeps the row
    lock from `Locked` to its commit; protocol 6 dispatch books first and claims
    the row in a transaction of its own. */
module Dispatcher {

  /** Jobs per worker; one while a realtime slot is live, which the model need
      not tell apart. */
  const DEPTH: nat := 2

  datatype Phase = Queued | Running | Succeeded | Failed | Cancelled
  {
    predicate Terminal() { Succeeded? || Failed? || Cancelled? }
  }

  datatype Row = Row(phase: Phase, attempt: nat)

  /** `id` is the identity of the entry object: no two bookings share one. */
  datatype Entry = Entry(worker: nat, attempt: nat, id: nat)

  datatype Report = Report(job: nat, entry: Entry)

  datatype Hand =
    | Idle
    | Recovering(job: nat)
    | Requeueing(job: nat)
    | Failing(job: nat)
    | Popped(job: nat)
    | Locked(job: nat, worker: nat)
    | Sending(job: nat, entry: Entry)
    | Sourceless(job: nat)
    | Read(job: nat, worker: nat, attempt: nat)
    | Claiming(job: nat, entry: Entry)
    | Doubting(job: nat, entry: Entry, applied: bool)
  {
    predicate Holds(j: nat) { !Idle? && job == j }

    /** Whether the dispatching transaction holds the lock of this row. */
    predicate Locks(j: nat) { (Locked? || Sending? || Sourceless?) && job == j }
  }

  datatype State = State(
    rows: map<nat, Row>,
    arriving: set<nat>,
    queue: multiset<nat>,
    parked: multiset<nat>,
    lost: multiset<nat>,
    inflight: map<nat, Entry>,
    slots: map<nat, nat>,
    gone: set<nat>,
    reports: set<Report>,
    hand: Hand,
    nextId: nat)

  datatype Event =
    | Submit(job: nat)                  // the new row commits
    | Enqueue(job: nat)                 // its hint is pushed
    | Abandon(job: nat)                 // its age could not be read back
    | TakeLost(job: nat)
    | Sweep(job: nat)
    | Requeue
    | PushRequeued
    | FailSpent
    | RecoveryRaises(applied: bool)
    | Pop(job: nat)
    | Drop
    | Park
    | LockRow(worker: nat)
    | Book
    | NoSource
    | FailSource
    | SendFails
    | CommitRunning
    | DispatchRaises(applied: bool)
    | ReadRow(worker: nat)
    | BookClaim
    | Claimed
    | Refused(stale: bool)
    | ClaimRaises(applied: bool)
    | ClaimRead
    | ClaimUnread
    | EndPass
    | WorkerLost(worker: nat)
    | Track(job: nat, worker: nat, attempt: nat)
    | Hear(job: nat)
    | Verdict(report: Report, phase: Phase)
    | Clear(report: Report)
    | Cancel(job: nat)
    | Restart(receipted: map<nat, Phase>)

  function Init(): State {
    State(map[], {}, multiset{}, multiset{}, multiset{}, map[], map[], {}, {}, Idle, 0)
  }

  // ----- the pieces of memory the steps change -----

  function Slot(slots: map<nat, nat>, w: nat): nat {
    if w in slots then slots[w] else 0
  }

  function TakeSlot(slots: map<nat, nat>, w: nat): map<nat, nat> {
    slots[w := Slot(slots, w) + 1]
  }

  function ReleaseSlot(slots: map<nat, nat>, w: nat): map<nat, nat> {
    slots[w := if Slot(slots, w) > 0 then Slot(slots, w) - 1 else 0]
  }

  /** The jobs whose entry names this worker. */
  function Held(inflight: map<nat, Entry>, w: nat): set<nat> {
    set j | j in inflight && inflight[j].worker == w
  }

  function Without(inflight: map<nat, Entry>, j: nat): map<nat, Entry> {
    inflight - {j}
  }

  /** `clear_if_current` and `_drop_early_entry`: only this very entry, and
      its slot with it. */
  function Release(s: State, j: nat, e: Entry): State {
    if j in s.inflight && s.inflight[j] == e
    then s.(inflight := Without(s.inflight, j), slots := ReleaseSlot(s.slots, e.worker))
    else s
  }

  function Booked(s: State, j: nat, w: nat, attempt: nat): State {
    s.(inflight := s.inflight[j := Entry(w, attempt, s.nextId)],
       slots := TakeSlot(s.slots, w),
       nextId := s.nextId + 1)
  }

  function Put(s: State, j: nat, phase: Phase): State
    requires j in s.rows
  {
    s.(rows := s.rows[j := s.rows[j].(phase := phase)])
  }

  /** The dispatch raised: the hint goes back unless the job has an entry. */
  function Returned(s: State, j: nat): State {
    if j in s.inflight then s.(hand := Idle)
    else s.(hand := Idle, queue := s.queue + multiset{j})
  }

  /** What `recover` makes of one row. */
  function Recovered(j: nat, row: Row, receipted: map<nat, Phase>): Row {
    if !row.phase.Running? then row
    else if j in receipted then row.(phase := receipted[j])
    else if row.attempt == 1 then Row(Queued, 2)
    else row.(phase := Failed)
  }

  function RecoveredRows(rows: map<nat, Row>, receipted: map<nat, Phase>): map<nat, Row> {
    map j | j in rows :: Recovered(j, rows[j], receipted)
  }

  function QueuedIn(rows: map<nat, Row>): set<nat> {
    set j | j in rows && rows[j].phase.Queued?
  }

  // ----- events -----

  predicate InPhase(s: State, j: nat, p: Phase) {
    j in s.rows && s.rows[j].phase == p
  }

  predicate Live(s: State, j: nat) {
    j in s.rows && !s.rows[j].phase.Terminal()
  }

  /** A report is refused once the row is terminal or a later attempt owns it. */
  predicate Superseded(s: State, r: Report) {
    r.job in s.rows && (s.rows[r.job].phase.Terminal() || s.rows[r.job].attempt > r.entry.attempt)
  }

  predicate Enabled(s: State, ev: Event) {
    match ev
    case Submit(j) => j !in s.rows
    case Enqueue(j) => j in s.arriving
    case Abandon(j) => j in s.arriving
    case TakeLost(j) => s.hand.Idle? && j in s.lost
    case Sweep(j) => s.hand.Idle? && j in s.inflight
    case Requeue => s.hand.Recovering? && s.hand.job in s.rows
    case PushRequeued => s.hand.Requeueing?
    case FailSpent => s.hand.Failing? && s.hand.job in s.rows
    case RecoveryRaises(applied) =>
      && (s.hand.Recovering? || s.hand.Failing?)
      && (applied ==> Live(s, s.hand.job))
      && (applied && s.hand.Recovering? ==> s.rows[s.hand.job] == Row(Running, 1))
    case Pop(j) => s.hand.Idle? && j in s.queue
    case Drop => s.hand.Popped? && !InPhase(s, s.hand.job, Queued)
    case Park => s.hand.Popped? || s.hand.Read?
    case LockRow(w) =>
      s.hand.Popped? && InPhase(s, s.hand.job, Queued) && w !in s.gone && Slot(s.slots, w) < DEPTH
    case Book => s.hand.Locked? && s.hand.job in s.rows
    case NoSource => s.hand.Sending?
    case FailSource => s.hand.Sourceless? && s.hand.job in s.rows
    case SendFails => s.hand.Sending?
    case CommitRunning => s.hand.Sending? && s.hand.job in s.rows
    case DispatchRaises(applied) =>
      && (s.hand.Popped? || s.hand.Locked? || s.hand.Sending? || s.hand.Sourceless? || s.hand.Read?)
      && (applied ==> (s.hand.Sending? || s.hand.Sourceless?) && s.hand.job in s.rows)
    case ReadRow(w) =>
      s.hand.Popped? && InPhase(s, s.hand.job, Queued) && w !in s.gone && Slot(s.slots, w) < DEPTH
    case BookClaim => s.hand.Read?
    case Claimed => s.hand.Claiming? && InPhase(s, s.hand.job, Queued)
    case Refused(stale) => s.hand.Claiming? && (stale ==> !InPhase(s, s.hand.job, Queued))
    case ClaimRaises(applied) => s.hand.Claiming? && (applied ==> InPhase(s, s.hand.job, Queued))
    case ClaimRead => s.hand.Doubting?
    case ClaimUnread => s.hand.Doubting?
    case EndPass => s.hand.Idle?
    case WorkerLost(_) => true
    case Track(j, _, attempt) => j in s.rows && j !in s.inflight && 1 <= attempt <= s.rows[j].attempt
    case Hear(j) => j in s.inflight
    case Verdict(r, phase) =>
      r in s.reports && r.job in s.rows && !s.hand.Locks(r.job) && !Superseded(s, r)
      && (phase.Succeeded? || phase.Failed?)
    case Clear(r) => r in s.reports && Superseded(s, r)
    case Cancel(j) => Live(s, j) && !s.hand.Locks(j)
    case Restart(receipted) => forall j | j in receipted :: receipted[j].Terminal()
  }

  /** `requeue_or_fail`, up to the push or the second transaction. */
  function AfterRequeue(s: State, j: nat): State
    requires j in s.rows
  {
    if s.rows[j].phase.Terminal() then s.(hand := Idle)
    else if s.rows[j].phase.Queued? then s.(hand := Idle, queue := s.queue + multiset{j})
    else if s.rows[j].attempt == 1 then s.(hand := Requeueing(j), rows := s.rows[j := Row(Queued, 2)])
    else s.(hand := Failing(j))
  }

  function AfterRaise(s: State, j: nat, applied: bool): State
    requires applied ==> j in s.rows
  {
    var rows :=
      if !applied then s.rows
      else if s.hand.Recovering? then s.rows[j := Row(Queued, 2)]
      else s.rows[j := s.rows[j].(phase := Failed)];
    s.(hand := Idle, rows := rows, lost := s.lost + multiset{j})
  }

  function MovedToLost(s: State, w: nat): State {
    s.(inflight := s.inflight - Held(s.inflight, w),
       lost := s.lost + multiset(Held(s.inflight, w)),
       gone := s.gone + {w})
  }

  /** `inflight.pop(job, None)` followed by a release of the picked worker. */
  function Unbooked(s: State, j: nat, w: nat): State {
    s.(inflight := Without(s.inflight, j), slots := ReleaseSlot(s.slots, w))
  }

  function Next(s: State, ev: Event): State
    requires Enabled(s, ev)
  {
    match ev
    case Submit(j) => s.(rows := s.rows[j := Row(Queued, 1)], arriving := s.arriving + {j})
    case Enqueue(j) => s.(arriving := s.arriving - {j}, queue := s.queue + multiset{j})
    case Abandon(j) => s.(arriving := s.arriving - {j})
    case TakeLost(j) => s.(lost := s.lost - multiset{j}, hand := Recovering(j))
    case Sweep(j) => Release(s, j, s.inflight[j]).(hand := Recovering(j))
    case Requeue => AfterRequeue(s, s.hand.job)
    case PushRequeued => s.(hand := Idle, queue := s.queue + multiset{s.hand.job})
    case FailSpent =>
      if Live(s, s.hand.job) then Put(s, s.hand.job, Failed).(hand := Idle) else s.(hand := Idle)
    case RecoveryRaises(applied) => AfterRaise(s, s.hand.job, applied)
    case Pop(j) => s.(queue := s.queue - multiset{j}, hand := Popped(j))
    case Drop => s.(hand := Idle)
    case Park => s.(hand := Idle, parked := s.parked + multiset{s.hand.job})
    case LockRow(w) => s.(hand := Locked(s.hand.job, w))
    case Book =>
      var j, w := s.hand.job, s.hand.worker;
      var attempt := s.rows[j].attempt;
      Booked(s, j, w, attempt).(hand := Sending(j, Entry(w, attempt, s.nextId)))
    case NoSource => Unbooked(s, s.hand.job, s.hand.entry.worker).(hand := Sourceless(s.hand.job))
    case FailSource => Put(s, s.hand.job, Failed).(hand := Idle)
    case SendFails =>
      if s.hand.job !in s.inflight then s.(hand := Idle)
      else Unbooked(s, s.hand.job, s.hand.entry.worker)
           .(hand := Idle, parked := s.parked + multiset{s.hand.job})
    case CommitRunning => Put(s, s.hand.job, Running).(hand := Idle)
    case DispatchRaises(applied) =>
      var j := s.hand.job;
      Returned(if !applied then s else Put(s, j, if s.hand.Sending? then Running else Failed), j)
    case ReadRow(w) => s.(hand := Read(s.hand.job, w, s.rows[s.hand.job].attempt))
    case BookClaim =>
      var j, w, attempt := s.hand.job, s.hand.worker, s.hand.attempt;
      Booked(s, j, w, attempt).(hand := Claiming(j, Entry(w, attempt, s.nextId)))
    case Claimed => Put(s, s.hand.job, Running).(hand := Idle)
    case Refused(stale) =>
      var t := Release(s, s.hand.job, s.hand.entry).(hand := Idle);
      if stale then t else t.(parked := s.parked + multiset{s.hand.job})
    case ClaimRaises(applied) =>
      (if applied then Put(s, s.hand.job, Running) else s)
      .(hand := Doubting(s.hand.job, s.hand.entry, applied))
    case ClaimRead =>
      if s.hand.applied then s.(hand := Idle)
      else Release(s, s.hand.job, s.hand.entry)
           .(hand := Idle, lost := s.lost + multiset{s.hand.job})
    case ClaimUnread => s.(hand := Idle)
    case EndPass => s.(queue := s.queue + s.parked, parked := multiset{})
    case WorkerLost(w) => MovedToLost(s, w)
    case Track(j, w, attempt) => Booked(s, j, w, attempt)
    case Hear(j) => s.(reports := s.reports + {Report(j, s.inflight[j])})
    case Verdict(r, phase) => Put(s, r.job, phase)
    case Clear(r) => Release(s, r.job, r.entry)
    case Cancel(j) => Put(s, j, Cancelled)
    case Restart(receipted) =>
      var rows := RecoveredRows(s.rows, receipted);
      Init().(rows := rows, queue := multiset(QueuedIn(rows)), nextId := s.nextId)
  }

  // ----- runs -----

  predicate Run(evs: seq<Event>)
    decreases |evs|, 0
  {
    evs == [] || (Run(evs[..|evs| - 1]) && Enabled(After(evs[..|evs| - 1]), evs[|evs| - 1]))
  }

  function After(evs: seq<Event>): State
    requires Run(evs)
    decreases |evs|, 1
  {
    if evs == [] then Init() else Next(After(evs[..|evs| - 1]), evs[|evs| - 1])
  }

  // ----- what every step keeps -----

  predicate Elsewhere(s: State, j: nat) {
    j in s.lost || ((s.hand.Recovering? || s.hand.Failing?) && s.hand.job == j)
  }

  /** A running job belongs to an entry of its own attempt, or to somebody who
      is about to requeue it. */
  predicate RunningOk(s: State, j: nat) {
    InPhase(s, j, Running) ==>
      Elsewhere(s, j) || (j in s.inflight && s.inflight[j].attempt == s.rows[j].attempt)
  }

  predicate RowOk(s: State, j: nat) {
    && (j in s.rows ==> 1 <= s.rows[j].attempt <= 2)
    && (j in s.arriving || j in s.queue || j in s.parked || j in s.lost ==> j in s.rows)
    && (j in s.inflight ==> j in s.rows && 1 <= s.inflight[j].attempt <= s.rows[j].attempt)
    && RunningOk(s, j)
  }

  predicate ReportOk(s: State, r: Report) {
    r.job in s.rows && r.entry.attempt <= s.rows[r.job].attempt
  }

  predicate Mine(s: State, j: nat, e: Entry) {
    j in s.inflight && s.inflight[j] == e
  }

  predicate HandOk(s: State) {
    match s.hand
    case Idle => true
    case Locked(j, _) => InPhase(s, j, Queued)
    case Sending(j, e) =>
      && InPhase(s, j, Queued) && e.attempt == s.rows[j].attempt
      && (Mine(s, j, e) || (j in s.lost && e.worker in s.gone))
    case Sourceless(j) => InPhase(s, j, Queued)
    case Read(j, _, attempt) =>
      j in s.rows && !s.rows[j].phase.Running? && s.rows[j].attempt == attempt
    case Claiming(j, e) =>
      && j in s.rows && !s.rows[j].phase.Running? && s.rows[j].attempt == e.attempt
      && (Live(s, j) ==> Mine(s, j, e) || j in s.lost)
    case Doubting(j, e, applied) =>
      && j in s.rows && s.rows[j].attempt == e.attempt
      && (Live(s, j) ==> (Mine(s, j, e) || j in s.lost) && (applied <==> s.rows[j].phase.Running?))
    case _ => s.hand.job in s.rows
  }

  ghost predicate Inv(s: State) {
    && (forall j :: RowOk(s, j))
    && (forall r | r in s.reports :: ReportOk(s, r))
    && HandOk(s)
  }

  // The three kinds of step: a recovery by the loop, a dispatch by the loop,
  // and everything the loop does not do itself.

  predicate Recovery(ev: Event) {
    ev.TakeLost? || ev.Sweep? || ev.Requeue? || ev.PushRequeued? || ev.FailSpent? || ev.RecoveryRaises?
  }

  predicate Outside(ev: Event) {
    || ev.Submit? || ev.Enqueue? || ev.Abandon? || ev.WorkerLost? || ev.Track? || ev.Hear?
    || ev.Verdict? || ev.Clear? || ev.Cancel? || ev.Restart? || ev.EndPass?
  }

  predicate Booking(ev: Event) {
    ev.Pop? || ev.Drop? || ev.Park? || ev.LockRow? || ev.Book? || ev.ReadRow? || ev.BookClaim?
  }

  predicate Sweeping(ev: Event) {
    ev.Restart? || ev.WorkerLost? || ev.EndPass? || ev.Clear?
  }

  lemma HandKeptSweeping(s: State, ev: Event)
    requires Inv(s) && Enabled(s, ev) && Sweeping(ev)
    ensures HandOk(Next(s, ev))
  {
    if !s.hand.Idle? {
      assert RowOk(s, s.hand.job);
    }
    match ev
    case Clear(r) => assert ReportOk(s, r);
    case _ =>
  }

  lemma HandKeptOutside(s: State, ev: Event)
    requires Inv(s) && Enabled(s, ev) && Outside(ev)
    ensures HandOk(Next(s, ev))
  {
    if Sweeping(ev) {
      HandKeptSweeping(s, ev);
    } else if !s.hand.Idle? {
      assert RowOk(s, s.hand.job);
    }
  }

  lemma HandKept(s: State, ev: Event)
    requires Inv(s) && Enabled(s, ev)
    ensures HandOk(Next(s, ev))
  {
    if Outside(ev) {
      HandKeptOutside(s, ev);
    } else {
      if !s.hand.Idle? {
        assert RowOk(s, s.hand.job);
      }
      match ev
      case TakeLost(j) => assert RowOk(s, j);
      case Sweep(j) => assert RowOk(s, j);
      case Pop(j) => assert RowOk(s, j);
      case _ =>
    }
  }

  lemma RowKeptRequeue(s: State, ev: Event, j: nat)
    requires Inv(s) && Enabled(s, ev) && (ev.Requeue? || ev.RecoveryRaises?)
    ensures RowOk(Next(s, ev), j)
  {
    assert RowOk(s, j);
  }

  lemma RowKeptRecovery(s: State, ev: Event, j: nat)
    requires Inv(s) && Enabled(s, ev) && Recovery(ev)
    ensures RowOk(Next(s, ev), j)
  {
    if ev.Requeue? || ev.RecoveryRaises? {
      RowKeptRequeue(s, ev, j);
    } else {
      assert RowOk(s, j);
    }
  }

  lemma RowKeptBooking(s: State, ev: Event, j: nat)
    requires Inv(s) && Enabled(s, ev) && Booking(ev)
    ensures RowOk(Next(s, ev), j)
  {
    assert RowOk(s, j);
  }

  lemma RowKeptSweeping(s: State, ev: Event, j: nat)
    requires Inv(s) && Enabled(s, ev) && Sweeping(ev)
    ensures RowOk(Next(s, ev), j)
  {
    assert RowOk(s, j);
    match ev
    case Clear(r) => assert ReportOk(s, r);
    case _ =>
  }

  lemma RowKeptOutside(s: State, ev: Event, j: nat)
    requires Inv(s) && Enabled(s, ev) && Outside(ev)
    ensures RowOk(Next(s, ev), j)
  {
    if Sweeping(ev) {
      RowKeptSweeping(s, ev, j);
    } else {
      assert RowOk(s, j);
    }
  }

  predicate Claim(ev: Event) {
    ev.Claimed? || ev.Refused? || ev.ClaimRaises? || ev.ClaimRead? || ev.ClaimUnread?
  }

  lemma RowKeptRefused(s: State, ev: Event, j: nat)
    requires Inv(s) && Enabled(s, ev) && ev.Refused?
    ensures RowOk(Next(s, ev), j)
  {
    assert RowOk(s, j);
  }

  lemma RowKeptUnclaimed(s: State, j: nat)
    requires Inv(s) && Enabled(s, ClaimRead)
    ensures RowOk(Next(s, ClaimRead), j)
  {
    assert RowOk(s, j);
  }

  lemma RowKeptClaim(s: State, ev: Event, j: nat)
    requires Inv(s) && Enabled(s, ev) && Claim(ev)
    ensures RowOk(Next(s, ev), j)
  {
    if ev.Refused? {
      RowKeptRefused(s, ev, j);
    } else if ev.ClaimRead? {
      RowKeptUnclaimed(s, j);
    } else {
      assert RowOk(s, j);
    }
  }

  lemma RowKeptSend(s: State, ev: Event, j: nat)
    requires Inv(s) && Enabled(s, ev) && !Recovery(ev) && !Booking(ev) && !Claim(ev) && !Outside(ev)
    ensures RowOk(Next(s, ev), j)
  {
    assert RowOk(s, j);
  }

  lemma LoopHearsNothing(s: State, ev: Event)
    requires Enabled(s, ev) && !Outside(ev)
    ensures Next(s, ev).reports == s.reports
  {
  }

  lemma ReportsCome(s: State, ev: Event, r: Report)
    requires Enabled(s, ev) && r in Next(s, ev).reports
    ensures r in s.reports || (ev == Hear(r.job) && r.entry == s.inflight[r.job] && Next(s, ev).rows == s.rows)
  {
    if !Outside(ev) {
      LoopHearsNothing(s, ev);
    }
  }

  lemma ReportKept(s: State, ev: Event, r: Report)
    requires Inv(s) && Enabled(s, ev) && r in Next(s, ev).reports
    ensures ReportOk(Next(s, ev), r)
  {
    ReportsCome(s, ev, r);
    if r in s.reports {
      assert ReportOk(s, r);
      RowMoves(s, ev, r.job);
    } else {
      assert RowOk(s, r.job);
    }
  }

  lemma RowKept(s: State, ev: Event, j: nat)
    requires Inv(s) && Enabled(s, ev)
    ensures RowOk(Next(s, ev), j)
  {
    if Recovery(ev) {
      RowKeptRecovery(s, ev, j);
    } else if Booking(ev) {
      RowKeptBooking(s, ev, j);
    } else if Claim(ev) {
      RowKeptClaim(s, ev, j);
    } else if Outside(ev) {
      RowKeptOutside(s, ev, j);
    } else {
      RowKeptSend(s, ev, j);
    }
  }

  lemma NextKeepsInv(s: State, ev: Event)
    requires Inv(s) && Enabled(s, ev)
    ensures Inv(Next(s, ev))
  {
    forall j: nat
      ensures RowOk(Next(s, ev), j)
    {
      RowKept(s, ev, j);
    }
    forall r | r in Next(s, ev).reports
      ensures ReportOk(Next(s, ev), r)
    {
      ReportKept(s, ev, r);
    }
    HandKept(s, ev);
  }

  lemma {:induction false} RunKeepsInv(evs: seq<Event>)
    requires Run(evs)
    ensures Inv(After(evs))
  {
    if evs != [] {
      RunKeepsInv(evs[..|evs| - 1]);
      NextKeepsInv(After(evs[..|evs| - 1]), evs[|evs| - 1]);
    }
  }

  // ----- custody -----

  predicate Tracked(s: State, j: nat) {
    || j in s.arriving || j in s.queue || j in s.parked || j in s.lost || j in s.inflight
    || s.hand.Holds(j)
  }

  /** The two steps that let go of a live job nobody else has: the request that
      created it fails between its commit and its push, or a late report clears
      the entry of an earlier attempt, the only thing left naming the job. */
  predicate Strands(s: State, ev: Event, j: nat) {
    && Live(s, j)
    && j !in s.queue && j !in s.parked && j !in s.lost && !s.hand.Holds(j)
    && (|| (ev == Abandon(j) && j !in s.inflight)
        || (ev.Clear? && ev.report.job == j && Mine(s, j, ev.report.entry) && j !in s.arriving))
  }

  predicate Custody(s: State, ev: Event, j: nat)
    requires Enabled(s, ev)
  {
    Tracked(Next(s, ev), j) <==> !Strands(s, ev, j)
  }

  lemma CustodySweeping(s: State, ev: Event, j: nat)
    requires Inv(s) && Enabled(s, ev) && Live(Next(s, ev), j) && Sweeping(ev)
    requires Tracked(s, j) || ev.Restart?
    ensures Custody(s, ev, j)
  {
    assert RowOk(s, j);
  }

  lemma CustodyOutside(s: State, ev: Event, j: nat)
    requires Inv(s) && Enabled(s, ev) && Live(Next(s, ev), j) && Outside(ev)
    requires Tracked(s, j) || ev == Submit(j) || ev.Restart?
    ensures Custody(s, ev, j)
  {
    if Sweeping(ev) {
      CustodySweeping(s, ev, j);
    } else {
      assert RowOk(s, j);
    }
  }

  lemma CustodyRecovery(s: State, ev: Event, j: nat)
    requires Inv(s) && Enabled(s, ev) && Live(Next(s, ev), j) && Recovery(ev) && Tracked(s, j)
    ensures Custody(s, ev, j)
  {
    if ev.Requeue? || ev.RecoveryRaises? {
      CustodyRequeue(s, ev, j);
    }
  }

  lemma CustodyRequeue(s: State, ev: Event, j: nat)
    requires Inv(s) && Enabled(s, ev) && Live(Next(s, ev), j) && Tracked(s, j)
    requires ev.Requeue? || ev.RecoveryRaises?
    ensures Custody(s, ev, j)
  {
  }

  lemma CustodyBooking(s: State, ev: Event, j: nat)
    requires Inv(s) && Enabled(s, ev) && Live(Next(s, ev), j) && Booking(ev) && Tracked(s, j)
    ensures Custody(s, ev, j)
  {
    assert RowOk(s, j);
  }

  lemma CustodyRefused(s: State, ev: Event, j: nat)
    requires Inv(s) && Enabled(s, ev) && Live(Next(s, ev), j) && ev.Refused? && Tracked(s, j)
    ensures Custody(s, ev, j)
  {
    assert RowOk(s, j);
  }

  lemma CustodyClaim(s: State, ev: Event, j: nat)
    requires Inv(s) && Enabled(s, ev) && Live(Next(s, ev), j) && Claim(ev) && Tracked(s, j)
    ensures Custody(s, ev, j)
  {
    if ev.Refused? {
      CustodyRefused(s, ev, j);
    } else {
      assert RowOk(s, j);
    }
  }

  lemma CustodySend(s: State, ev: Event, j: nat)
    requires Inv(s) && Enabled(s, ev) && Live(Next(s, ev), j) && Tracked(s, j)
    requires !Recovery(ev) && !Booking(ev) && !Claim(ev) && !Outside(ev)
    ensures Custody(s, ev, j)
  {
    assert RowOk(s, j);
  }

  /** No other step loses a live job, and a restart finds even those:
      afterwards the job is tracked unless this step strands it. */
  lemma CustodyStep(s: State, ev: Event, j: nat)
    requires Inv(s) && Enabled(s, ev) && Live(Next(s, ev), j)
    requires Tracked(s, j) || ev == Submit(j) || ev.Restart?
    ensures Custody(s, ev, j)
  {
    if Recovery(ev) {
      CustodyRecovery(s, ev, j);
    } else if Booking(ev) {
      CustodyBooking(s, ev, j);
    } else if Claim(ev) {
      CustodyClaim(s, ev, j);
    } else if Outside(ev) {
      CustodyOutside(s, ev, j);
    } else {
      CustodySend(s, ev, j);
    }
  }

  /** A report can strand a job only when it speaks for the first attempt of a
      job that is queued for its second. */
  lemma OnlyLateReportsStrand(s: State, ev: Event, j: nat)
    requires Inv(s) && Enabled(s, ev) && Strands(s, ev, j) && ev.Clear?
    ensures s.rows[j] == Row(Queued, 2) && ev.report.entry.attempt < 2
  {
    assert RowOk(s, j);
  }

  /** The steps that find an untracked job again: a restart, and a protocol 6
      worker that names a dispatch it was given. */
  predicate Regains(ev: Event, j: nat) {
    ev.Restart? || (ev.Track? && ev.job == j)
  }

  lemma NotRegainedByWorkers(s: State, ev: Event, j: nat)
    requires Inv(s) && Enabled(s, ev) && Live(s, j) && !Tracked(s, j)
    requires ev.WorkerLost? || ev.Hear? || ev.Verdict? || ev.Clear? || (ev.Track? && ev.job != j)
    ensures !Tracked(Next(s, ev), j)
  {
    match ev
    case WorkerLost(_) =>
    case Track(_, _, _) =>
    case Hear(_) =>
    case Verdict(_, _) =>
    case Clear(_) =>
  }

  lemma NotRegainedByOthers(s: State, ev: Event, j: nat)
    requires Enabled(s, ev) && Live(s, j) && !Tracked(s, j)
    requires ev.Submit? || ev.Enqueue? || ev.Abandon? || ev.Cancel? || ev.EndPass?
    ensures !Tracked(Next(s, ev), j)
  {
    match ev
    case Submit(_) =>
    case Enqueue(_) =>
    case Abandon(_) =>
    case Cancel(_) =>
    case EndPass =>
  }

  lemma RegainedOutside(s: State, ev: Event, j: nat)
    requires Inv(s) && Enabled(s, ev) && Live(s, j) && !Tracked(s, j) && Outside(ev)
    requires Live(Next(s, ev), j)
    ensures Tracked(Next(s, ev), j) <==> Regains(ev, j)
  {
    if ev.Restart? {
      RestartFindsEveryJob(s, ev.receipted, j);
    } else if ev.Submit? || ev.Enqueue? || ev.Abandon? || ev.Cancel? || ev.EndPass? {
      NotRegainedByOthers(s, ev, j);
    } else if !Regains(ev, j) {
      NotRegainedByWorkers(s, ev, j);
    }
  }

  lemma NotRegainedInRecovery(s: State, ev: Event, j: nat)
    requires Enabled(s, ev) && !Tracked(s, j)
    requires Recovery(ev)
    ensures !Tracked(Next(s, ev), j)
  {
    match ev
    case TakeLost(_) =>
    case Sweep(_) =>
    case Requeue =>
    case PushRequeued =>
    case FailSpent =>
    case RecoveryRaises(_) =>
  }

  lemma NotRegainedInBooking(s: State, ev: Event, j: nat)
    requires Enabled(s, ev) && !Tracked(s, j)
    requires Booking(ev)
    ensures !Tracked(Next(s, ev), j)
  {
    match ev
    case Pop(_) =>
    case Drop =>
    case Park =>
    case LockRow(_) =>
    case Book =>
    case ReadRow(_) =>
    case BookClaim =>
  }

  lemma NotRegainedInClaim(s: State, ev: Event, j: nat)
    requires Enabled(s, ev) && !Tracked(s, j)
    requires Claim(ev)
    ensures !Tracked(Next(s, ev), j)
  {
    match ev
    case Claimed =>
    case Refused(_) =>
    case ClaimRaises(_) =>
    case ClaimRead =>
    case ClaimUnread =>
  }

  lemma NotRegainedInSend(s: State, ev: Event, j: nat)
    requires Enabled(s, ev) && !Tracked(s, j)
    requires !Recovery(ev) && !Booking(ev) && !Claim(ev) && !Outside(ev)
    ensures !Tracked(Next(s, ev), j)
  {
    match ev
    case NoSource =>
    case FailSource =>
    case SendFails =>
    case CommitRunning =>
    case DispatchRaises(_) =>
  }

  lemma NotRegainedInside(s: State, ev: Event, j: nat)
    requires Enabled(s, ev) && !Tracked(s, j) && !Outside(ev)
    ensures !Tracked(Next(s, ev), j)
  {
    if Recovery(ev) {
      NotRegainedInRecovery(s, ev, j);
    } else if Booking(ev) {
      NotRegainedInBooking(s, ev, j);
    } else if Claim(ev) {
      NotRegainedInClaim(s, ev, j);
    } else {
      NotRegainedInSend(s, ev, j);
    }
  }

  /** From nowhere a live job comes back only by one of those steps. */
  lemma RegainStep(s: State, ev: Event, j: nat)
    requires Inv(s) && Enabled(s, ev) && Live(s, j) && !Tracked(s, j) && Live(Next(s, ev), j)
    ensures Tracked(Next(s, ev), j) <==> Regains(ev, j)
  {
    if Outside(ev) {
      RegainedOutside(s, ev, j);
    } else {
      NotRegainedInside(s, ev, j);
    }
  }

  /** Some step stranded the job and none regained it since. */
  predicate Stranded(evs: seq<Event>, j: nat)
    requires Run(evs)
  {
    evs != [] &&
    var before, ev := evs[..|evs| - 1], evs[|evs| - 1];
    Strands(After(before), ev, j) || (Stranded(before, j) && !Regains(ev, j))
  }

  /** However workers die, sends and commits fail and stalls are swept, a live job
      is arriving, queued, parked, held by the running step, in flight or
      lost-and-waiting, if and only if no stranding step let go of it that has
      not been made good since. */
  lemma {:induction false} NoJobIsStranded(evs: seq<Event>, j: nat)
    requires Run(evs) && Live(After(evs), j)
    ensures Tracked(After(evs), j) <==> !Stranded(evs, j)
  {
    if evs != [] {
      var before, ev := evs[..|evs| - 1], evs[|evs| - 1];
      var s := After(before);
      RunKeepsInv(before);
      OnlySubmitRevives(s, ev, j);
      if Live(s, j) {
        NoJobIsStranded(before, j);
        if Tracked(s, j) {
          CustodyStep(s, ev, j);
        } else {
          UntrackedIsNotStranded(s, ev, j);
          RegainStep(s, ev, j);
        }
      } else {
        NewbornIsNotStranded(before, j);
        CustodyStep(s, ev, j);
      }
    }
  }

  lemma UntrackedIsNotStranded(s: State, ev: Event, j: nat)
    requires Enabled(s, ev) && !Tracked(s, j)
    ensures !Strands(s, ev, j)
  {
  }

  /** Before its row exists a job is not stranded, and once over it stays over. */
  lemma {:induction false} NewbornIsNotStranded(evs: seq<Event>, j: nat)
    requires Run(evs) && j !in After(evs).rows
    ensures !Stranded(evs, j)
  {
    if evs != [] {
      var before := evs[..|evs| - 1];
      RunKeepsInv(before);
      RowMoves(After(before), evs[|evs| - 1], j);
      NewbornIsNotStranded(before, j);
    }
  }

  /** A restart rebuilds custody from the rows alone, stranded jobs included. */
  lemma RestartFindsEveryJob(s: State, receipted: map<nat, Phase>, j: nat)
    requires Inv(s) && Enabled(s, Restart(receipted))
    ensures Live(Next(s, Restart(receipted)), j) <==> j in Next(s, Restart(receipted)).queue
  {
    assert RowOk(s, j);
  }

  // ----- rows only move forward -----

  lemma OnlySubmitRevives(s: State, ev: Event, j: nat)
    requires Inv(s) && Enabled(s, ev) && Live(Next(s, ev), j)
    ensures Live(s, j) || ev == Submit(j)
  {
    RowMoves(s, ev, j);
  }

  predicate Forward(rows: map<nat, Row>, next: map<nat, Row>, ev: Event, j: nat) {
    && (j in rows ==>
          && j in next && rows[j].attempt <= next[j].attempt <= 2
          && (rows[j].phase.Terminal() ==> next[j] == rows[j]))
    && (j !in rows && j in next ==> ev == Submit(j))
  }

  /** The outside steps that write no row. */
  predicate Rowless(ev: Event) {
    ev.Enqueue? || ev.Abandon? || ev.EndPass? || ev.WorkerLost? || ev.Track? || ev.Hear? || ev.Clear?
  }

  lemma RowlessKeepsRows(s: State, ev: Event)
    requires Enabled(s, ev) && Rowless(ev)
    ensures Next(s, ev).rows == s.rows
  {
    match ev
    case Enqueue(_) =>
    case Abandon(_) =>
    case EndPass =>
    case WorkerLost(_) =>
    case Track(_, _, _) =>
    case Hear(_) =>
    case Clear(_) =>
  }

  lemma RowMovesOutside(s: State, ev: Event, j: nat)
    requires Inv(s) && Enabled(s, ev) && Outside(ev)
    ensures Forward(s.rows, Next(s, ev).rows, ev, j)
  {
    assert RowOk(s, j);
    if Rowless(ev) {
      RowlessKeepsRows(s, ev);
    }
  }

  lemma RowMovesInRecovery(s: State, ev: Event, j: nat)
    requires Inv(s) && Enabled(s, ev) && Recovery(ev)
    ensures Forward(s.rows, Next(s, ev).rows, ev, j)
  {
    assert RowOk(s, j);
  }

  /** Up to its booking a dispatch writes no row, and neither does a refusal. */
  predicate Unwriting(ev: Event) {
    Booking(ev) || ev.Refused? || ev.ClaimRead? || ev.ClaimUnread?
  }

  lemma BookingKeepsRows(s: State, ev: Event)
    requires Enabled(s, ev) && Booking(ev)
    ensures Next(s, ev).rows == s.rows
  {
    match ev
    case Pop(_) =>
    case Drop =>
    case Park =>
    case LockRow(_) =>
    case Book =>
    case ReadRow(_) =>
    case BookClaim =>
  }

  lemma UnwritingKeepsRows(s: State, ev: Event)
    requires Enabled(s, ev) && Unwriting(ev)
    ensures Next(s, ev).rows == s.rows
  {
    if Booking(ev) {
      BookingKeepsRows(s, ev);
    } else {
      match ev
      case Refused(_) =>
      case ClaimRead =>
      case ClaimUnread =>
    }
  }

  lemma RowMovesInDispatch(s: State, ev: Event, j: nat)
    requires Inv(s) && Enabled(s, ev) && !Recovery(ev) && !Outside(ev)
    ensures Forward(s.rows, Next(s, ev).rows, ev, j)
  {
    assert RowOk(s, j);
    if Unwriting(ev) {
      UnwritingKeepsRows(s, ev);
    }
  }

  /** Terminal rows never change, attempts never fall, rows never vanish. */
  lemma RowMoves(s: State, ev: Event, j: nat)
    requires Inv(s) && Enabled(s, ev)
    ensures Forward(s.rows, Next(s, ev).rows, ev, j)
  {
    if Outside(ev) {
      RowMovesOutside(s, ev, j);
    } else if Recovery(ev) {
      RowMovesInRecovery(s, ev, j);
    } else {
      RowMovesInDispatch(s, ev, j);
    }
  }

  lemma {:induction false} RowsMoveForward(evs: seq<Event>, n: nat, j: nat)
    requires Run(evs) && n <= |evs| && Run(evs[..n]) && j in After(evs[..n]).rows
    ensures j in After(evs).rows
    ensures After(evs[..n]).rows[j].attempt <= After(evs).rows[j].attempt <= 2
    ensures After(evs[..n]).rows[j].phase.Terminal() ==> After(evs).rows[j] == After(evs[..n]).rows[j]
  {
    if n == |evs| {
      assert evs[..n] == evs;
      RunKeepsInv(evs);
      assert RowOk(After(evs), j);
    } else {
      var before := evs[..|evs| - 1];
      assert before[..n] == evs[..n];
      RowsMoveForward(before, n, j);
      RunKeepsInv(before);
      RowMoves(After(before), evs[|evs| - 1], j);
    }
  }

  // ----- verdicts -----

  /** The steps that commit a terminal phase for this job. */
  predicate Ends(s: State, ev: Event, j: nat)
    requires Enabled(s, ev)
  {
    match ev
    case Verdict(r, _) => r.job == j
    case Cancel(k) => k == j
    case FailSpent => s.hand.job == j && Live(s, j)
    case FailSource => s.hand.job == j
    case RecoveryRaises(applied) => applied && s.hand.Failing? && s.hand.job == j
    case DispatchRaises(applied) => applied && s.hand.Sourceless? && s.hand.job == j
    case Restart(receipted) => InPhase(s, j, Running) && (j in receipted || s.rows[j].attempt == 2)
    case _ => false
  }

  /** It ends the job exactly when the job was live before and is not after. */
  predicate EndsRight(s: State, ev: Event, j: nat)
    requires Enabled(s, ev)
  {
    Ends(s, ev, j) <==> Live(s, j) && !Live(Next(s, ev), j)
  }

  lemma EndsOnceOutside(s: State, ev: Event, j: nat)
    requires Inv(s) && Enabled(s, ev) && j in s.rows && Outside(ev) && !Rowless(ev)
    ensures EndsRight(s, ev, j)
  {
    assert RowOk(s, j);
    match ev
    case Submit(_) =>
    case Verdict(_, _) =>
    case Cancel(_) =>
    case Restart(_) =>
  }

  lemma EndsOnceInRecovery(s: State, ev: Event, j: nat)
    requires Inv(s) && Enabled(s, ev) && j in s.rows && Recovery(ev)
    ensures EndsRight(s, ev, j)
  {
    assert RowOk(s, j);
  }

  lemma EndsOnceInClaim(s: State, ev: Event, j: nat)
    requires Inv(s) && Enabled(s, ev) && j in s.rows && (ev.Claimed? || ev.ClaimRaises?)
    ensures EndsRight(s, ev, j)
  {
    match ev
    case Claimed =>
    case ClaimRaises(_) =>
  }

  lemma EndsOnceInSend(s: State, ev: Event, j: nat)
    requires Inv(s) && Enabled(s, ev) && j in s.rows
    requires !Recovery(ev) && !Outside(ev) && !Booking(ev) && !Claim(ev)
    ensures EndsRight(s, ev, j)
  {
    match ev
    case NoSource =>
    case FailSource =>
    case SendFails =>
    case CommitRunning =>
    case DispatchRaises(_) =>
  }

  lemma EndsOnce(s: State, ev: Event, j: nat)
    requires Inv(s) && Enabled(s, ev) && j in s.rows
    ensures EndsRight(s, ev, j)
  {
    if Rowless(ev) {
      RowlessKeepsRows(s, ev);
    } else if Outside(ev) {
      EndsOnceOutside(s, ev, j);
    } else if Recovery(ev) {
      EndsOnceInRecovery(s, ev, j);
    } else if Unwriting(ev) {
      UnwritingKeepsRows(s, ev);
    } else if Claim(ev) {
      EndsOnceInClaim(s, ev, j);
    } else {
      EndsOnceInSend(s, ev, j);
    }
  }

  function Endings(evs: seq<Event>, j: nat): nat
    requires Run(evs)
  {
    if evs == [] then 0
    else
      var before := evs[..|evs| - 1];
      Endings(before, j) + if Ends(After(before), evs[|evs| - 1], j) then 1 else 0
  }

  /** Of all verdicts, cancellations and failures, at most one ever commits for
      a job, and exactly one for each job that is over. */
  lemma {:induction false} OneVerdict(evs: seq<Event>, j: nat)
    requires Run(evs)
    ensures Endings(evs, j) == if j in After(evs).rows && !Live(After(evs), j) then 1 else 0
  {
    if evs != [] {
      var before, ev := evs[..|evs| - 1], evs[|evs| - 1];
      OneVerdict(before, j);
      RunKeepsInv(before);
      RowMoves(After(before), ev, j);
      if j in After(before).rows {
        EndsOnce(After(before), ev, j);
      } else {
        NothingEndsUnborn(After(before), ev, j);
      }
    }
  }

  lemma EndingNeedsARow(s: State, ev: Event, j: nat)
    requires Inv(s) && Enabled(s, ev) && Ends(s, ev, j)
    ensures j in s.rows
  {
  }

  lemma SubmittedIsLive(s: State, j: nat)
    requires Enabled(s, Submit(j))
    ensures Live(Next(s, Submit(j)), j)
  {
  }

  lemma NothingEndsUnborn(s: State, ev: Event, j: nat)
    requires Inv(s) && Enabled(s, ev) && j !in s.rows
    ensures !Ends(s, ev, j) && (j in Next(s, ev).rows ==> Live(Next(s, ev), j))
  {
    if Ends(s, ev, j) {
      EndingNeedsARow(s, ev, j);
    }
    if j in Next(s, ev).rows {
      RowMoves(s, ev, j);
      SubmittedIsLive(s, j);
    }
  }

  /** A verdict that commits speaks for the attempt the row is on. */
  lemma VerdictNamesCurrentAttempt(evs: seq<Event>, r: Report, phase: Phase)
    requires Run(evs) && Enabled(After(evs), Verdict(r, phase))
    ensures r.entry.attempt == After(evs).rows[r.job].attempt
  {
    RunKeepsInv(evs);
    assert ReportOk(After(evs), r);
  }

  // ----- slots -----

  lemma HeldAfterPut(inflight: map<nat, Entry>, j: nat, e: Entry, w: nat)
    ensures |Held(inflight[j := e], w)|
         == |Held(inflight, w)| + (if e.worker == w then 1 else 0)
            - (if j in inflight && inflight[j].worker == w then 1 else 0)
  {
    HeldAfterRemove(inflight, j, w);
    var rest := Held(Without(inflight, j), w);
    assert j !in rest;
    assert Held(inflight[j := e], w) == if e.worker == w then rest + {j} else rest;
  }

  lemma HeldAfterRemove(inflight: map<nat, Entry>, j: nat, w: nat)
    ensures |Held(Without(inflight, j), w)|
         == |Held(inflight, w)| - (if j in inflight && inflight[j].worker == w then 1 else 0)
  {
    assert Held(Without(inflight, j), w) == Held(inflight, w) - {j};
  }

  lemma HeldAfterLoss(inflight: map<nat, Entry>, lost: nat, w: nat)
    ensures |Held(inflight - Held(inflight, lost), w)| == if w == lost then 0 else |Held(inflight, w)|
  {
    var left := inflight - Held(inflight, lost);
    if w == lost {
      assert Held(left, w) == {};
    } else {
      assert Held(left, w) == Held(inflight, w);
    }
  }

  /** A send in progress whose entry was taken from it still owes its worker a
      release. */
  function Owed(s: State, w: nat): nat {
    if s.hand.Sending? && s.hand.entry.worker == w && !Mine(s, s.hand.job, s.hand.entry) then 1 else 0
  }

  predicate SlotOk(s: State, w: nat) {
    Slot(s.slots, w) >= |Held(s.inflight, w)| + Owed(s, w)
  }

  /** The worker whose slot a step releases. */
  function Releases(s: State, ev: Event): set<nat>
    requires Enabled(s, ev)
  {
    match ev
    case Sweep(j) => {s.inflight[j].worker}
    case NoSource => {s.hand.entry.worker}
    case SendFails => if s.hand.job in s.inflight then {s.hand.entry.worker} else {}
    case Refused(_) => if Mine(s, s.hand.job, s.hand.entry) then {s.hand.entry.worker} else {}
    case ClaimRead =>
      if !s.hand.applied && Mine(s, s.hand.job, s.hand.entry) then {s.hand.entry.worker} else {}
    case Clear(r) => if Mine(s, r.job, r.entry) then {r.entry.worker} else {}
    case _ => {}
  }

  /** The booked steps and the failed sends that throw away an entry which is
      not their own, together with the slot it stood for. */
  predicate Displaces(s: State, ev: Event, w: nat)
    requires Enabled(s, ev)
  {
    match ev
    case Book => s.hand.job in s.inflight && s.inflight[s.hand.job].worker == w
    case BookClaim => s.hand.job in s.inflight && s.inflight[s.hand.job].worker == w
    case NoSource => Foreign(s, w)
    case SendFails => Foreign(s, w)
    case _ => false
  }

  predicate Foreign(s: State, w: nat) {
    && s.hand.Sending? && s.hand.job in s.inflight && s.inflight[s.hand.job] != s.hand.entry
    && s.inflight[s.hand.job].worker == w
  }

  function Gap(s: State, w: nat): int {
    Slot(s.slots, w) - |Held(s.inflight, w)|
  }

  /** A step accounts for a worker's slots when it keeps the counter large
      enough for everything still to be released, and, unless the worker was
      lost, changes the gap only by displacing an entry. */
  predicate Accounts(s: State, ev: Event, w: nat)
    requires Enabled(s, ev)
  {
    && SlotOk(Next(s, ev), w)
    && (w !in Next(s, ev).gone && !ev.Restart? ==>
          Gap(Next(s, ev), w) == Gap(s, w) + if Displaces(s, ev, w) then 1 else 0)
  }

  lemma SlotsBooked(s: State, ev: Event, w: nat)
    requires Inv(s) && Enabled(s, ev) && SlotOk(s, w)
    requires BooksASlot(ev)
    ensures Accounts(s, ev, w)
  {
    match ev
    case Book => HeldAfterPut(s.inflight, s.hand.job, Entry(s.hand.worker, s.rows[s.hand.job].attempt, s.nextId), w);
    case BookClaim => HeldAfterPut(s.inflight, s.hand.job, Entry(s.hand.worker, s.hand.attempt, s.nextId), w);
    case Track(j, worker, attempt) => HeldAfterPut(s.inflight, j, Entry(worker, attempt, s.nextId), w);
  }

  predicate Releasing(ev: Event) {
    ev.Sweep? || ev.NoSource? || ev.SendFails? || ev.Refused? || ev.ClaimRead? || ev.Clear?
  }

  lemma SlotsUnbooked(s: State, ev: Event, w: nat)
    requires Inv(s) && Enabled(s, ev) && SlotOk(s, w) && (ev.NoSource? || ev.SendFails?)
    ensures Accounts(s, ev, w)
    ensures w in Releases(s, ev) ==> Slot(s.slots, w) > 0
  {
    HeldAfterRemove(s.inflight, s.hand.job, w);
  }

  lemma SlotsRefused(s: State, ev: Event, w: nat)
    requires Inv(s) && Enabled(s, ev) && SlotOk(s, w) && ev.Refused?
    ensures Accounts(s, ev, w)
    ensures w in Releases(s, ev) ==> Slot(s.slots, w) > 0
  {
    HeldAfterRemove(s.inflight, s.hand.job, w);
  }

  lemma SlotsUnclaimed(s: State, w: nat)
    requires Inv(s) && Enabled(s, ClaimRead) && SlotOk(s, w)
    ensures Accounts(s, ClaimRead, w)
    ensures w in Releases(s, ClaimRead) ==> Slot(s.slots, w) > 0
  {
    HeldAfterRemove(s.inflight, s.hand.job, w);
  }

  lemma SlotsSwept(s: State, j: nat, w: nat)
    requires Inv(s) && Enabled(s, Sweep(j)) && SlotOk(s, w)
    ensures Accounts(s, Sweep(j), w)
    ensures w in Releases(s, Sweep(j)) ==> Slot(s.slots, w) > 0
  {
    HeldAfterRemove(s.inflight, j, w);
  }

  lemma SlotsCleared(s: State, r: Report, w: nat)
    requires Inv(s) && Enabled(s, Clear(r)) && SlotOk(s, w)
    ensures Accounts(s, Clear(r), w)
    ensures w in Releases(s, Clear(r)) ==> Slot(s.slots, w) > 0
  {
    HeldAfterRemove(s.inflight, r.job, w);
    assert ReportOk(s, r);
  }

  lemma SlotsAfterLoss(s: State, lost: nat, w: nat)
    requires Inv(s) && SlotOk(s, w)
    ensures Accounts(s, WorkerLost(lost), w)
  {
    HeldAfterLoss(s.inflight, lost, w);
    if s.hand.Sending? && Mine(s, s.hand.job, s.hand.entry) && s.hand.entry.worker == lost == w {
      assert s.hand.job in Held(s.inflight, w);
    }
  }

  lemma SlotsRestarted(s: State, ev: Event, w: nat)
    requires Inv(s) && Enabled(s, ev) && ev.Restart?
    ensures Accounts(s, ev, w)
  {
    assert Held(Next(s, ev).inflight, w) == {};
  }

  predicate BooksASlot(ev: Event) { ev.Book? || ev.BookClaim? || ev.Track? }

  predicate Untouching(ev: Event) {
    !Releasing(ev) && !BooksASlot(ev) && !ev.WorkerLost? && !ev.Restart?
  }

  lemma OutsideTouchesNothing(s: State, ev: Event)
    requires Enabled(s, ev) && Untouching(ev) && Outside(ev)
    ensures Next(s, ev).inflight == s.inflight && Next(s, ev).slots == s.slots
  {
  }

  lemma RecoveryTouchesNothing(s: State, ev: Event)
    requires Enabled(s, ev) && Untouching(ev) && Recovery(ev)
    ensures Next(s, ev).inflight == s.inflight && Next(s, ev).slots == s.slots
  {
    match ev
    case TakeLost(_) =>
    case Requeue =>
    case PushRequeued =>
    case FailSpent =>
    case RecoveryRaises(_) =>
  }

  lemma ClaimTouchesNothing(s: State, ev: Event)
    requires Enabled(s, ev) && Untouching(ev) && (Claim(ev) || Booking(ev))
    ensures Next(s, ev).inflight == s.inflight && Next(s, ev).slots == s.slots
  {
    match ev
    case Pop(_) =>
    case Drop =>
    case Park =>
    case LockRow(_) =>
    case ReadRow(_) =>
    case Claimed =>
    case ClaimRaises(_) =>
    case ClaimUnread =>
  }

  lemma SendTouchesNothing(s: State, ev: Event)
    requires Enabled(s, ev) && (ev.FailSource? || ev.CommitRunning? || ev.DispatchRaises?)
    ensures Next(s, ev).inflight == s.inflight && Next(s, ev).slots == s.slots
  {
  }

  lemma NothingTouched(s: State, ev: Event)
    requires Enabled(s, ev) && Untouching(ev)
    ensures Next(s, ev).inflight == s.inflight && Next(s, ev).slots == s.slots
  {
    if Outside(ev) {
      OutsideTouchesNothing(s, ev);
    } else if Recovery(ev) {
      RecoveryTouchesNothing(s, ev);
    } else if Claim(ev) || Booking(ev) {
      ClaimTouchesNothing(s, ev);
    } else {
      SendTouchesNothing(s, ev);
    }
  }

  /** Of these steps only `Book` starts a send. */
  lemma NobodyOwesMore(s: State, ev: Event, w: nat)
    requires Inv(s) && Enabled(s, ev) && Untouching(ev)
    ensures Owed(Next(s, ev), w) <= Owed(s, w)
  {
    if Next(s, ev).hand.Sending? {
      SendingWasSending(s, ev);
      NothingTouched(s, ev);
    }
  }

  lemma SendingWasSending(s: State, ev: Event)
    requires Inv(s) && Enabled(s, ev) && Untouching(ev) && Next(s, ev).hand.Sending?
    ensures Next(s, ev).hand == s.hand
  {
  }

  lemma SlotsUntouched(s: State, ev: Event, w: nat)
    requires Inv(s) && Enabled(s, ev) && SlotOk(s, w) && Untouching(ev)
    ensures Accounts(s, ev, w)
  {
    NothingTouched(s, ev);
    NobodyOwesMore(s, ev, w);
  }

  lemma SlotsStep(s: State, ev: Event, w: nat)
    requires Inv(s) && Enabled(s, ev) && SlotOk(s, w)
    ensures Accounts(s, ev, w)
  {
    if Releasing(ev) {
      SlotsAtRelease(s, ev, w);
    } else if BooksASlot(ev) {
      SlotsBooked(s, ev, w);
    } else if ev.WorkerLost? {
      SlotsAfterLoss(s, ev.worker, w);
    } else if ev.Restart? {
      SlotsRestarted(s, ev, w);
    } else {
      SlotsUntouched(s, ev, w);
    }
  }

  lemma SlotsAtRelease(s: State, ev: Event, w: nat)
    requires Inv(s) && Enabled(s, ev) && SlotOk(s, w) && Releasing(ev)
    ensures Accounts(s, ev, w)
    ensures w in Releases(s, ev) ==> Slot(s.slots, w) > 0
  {
    match ev
    case Sweep(j) => SlotsSwept(s, j, w);
    case Clear(r) => SlotsCleared(s, r, w);
    case Refused(_) => SlotsRefused(s, ev, w);
    case ClaimRead => SlotsUnclaimed(s, w);
    case _ => SlotsUnbooked(s, ev, w);
  }

  lemma {:induction false} RunKeepsSlots(evs: seq<Event>, w: nat)
    requires Run(evs)
    ensures SlotOk(After(evs), w)
  {
    if evs == [] {
      assert Held(map[], w) == {};
    } else {
      var before := evs[..|evs| - 1];
      RunKeepsInv(before);
      RunKeepsSlots(before, w);
      SlotsStep(After(before), evs[|evs| - 1], w);
    }
  }

  /** In no run does the clamp at zero bite: a slot is released only while the
      counter is positive. */
  lemma ClampNeverBites(evs: seq<Event>, ev: Event, w: nat)
    requires Run(evs) && Enabled(After(evs), ev) && w in Releases(After(evs), ev)
    ensures Slot(After(evs).slots, w) > 0
  {
    RunKeepsInv(evs);
    RunKeepsSlots(evs, w);
    OnlyTheseRelease(After(evs), ev, w);
    SlotsAtRelease(After(evs), ev, w);
  }

  lemma OnlyTheseRelease(s: State, ev: Event, w: nat)
    requires Enabled(s, ev) && w in Releases(s, ev)
    ensures Releasing(ev)
  {
  }

  /** How many entries of a worker were displaced since the process started. */
  function Displaced(evs: seq<Event>, w: nat): nat
    requires Run(evs)
  {
    if evs == [] || evs[|evs| - 1].Restart? then 0
    else
      var before := evs[..|evs| - 1];
      Displaced(before, w) + if Displaces(After(before), evs[|evs| - 1], w) then 1 else 0
  }

  lemma {:induction false} GapIsDisplaced(evs: seq<Event>, w: nat)
    requires Run(evs) && w !in After(evs).gone
    ensures Gap(After(evs), w) == Displaced(evs, w)
  {
    if evs == [] {
      assert Held(map[], w) == {};
    } else {
      var before, ev := evs[..|evs| - 1], evs[|evs| - 1];
      RunKeepsInv(before);
      RunKeepsSlots(before, w);
      if ev.Restart? {
        GapAfterRestart(After(before), ev, w);
      } else {
        SlotsStep(After(before), ev, w);
        if w in After(before).gone {
          GoneStays(After(before), ev, w);
        }
        GapIsDisplaced(before, w);
      }
    }
  }

  lemma GapAfterRestart(s: State, ev: Event, w: nat)
    requires Enabled(s, ev) && ev.Restart?
    ensures Gap(Next(s, ev), w) == 0
  {
    assert Held(Next(s, ev).inflight, w) == {};
  }

  lemma LoopForgetsNobody(s: State, ev: Event)
    requires Enabled(s, ev) && !Outside(ev)
    ensures Next(s, ev).gone == s.gone
  {
  }

  lemma GoneStays(s: State, ev: Event, w: nat)
    requires Enabled(s, ev) && !ev.Restart? && w in s.gone
    ensures w in Next(s, ev).gone
  {
    if !Outside(ev) {
      LoopForgetsNobody(s, ev);
    }
  }

  /** For every worker that is still connected, `jobs_in_flight` is the number
      of its entries plus the number of its entries that were displaced: the
      two agree exactly when no entry of that worker was ever displaced. */
  lemma SlotsAccount(evs: seq<Event>, w: nat)
    requires Run(evs) && w !in After(evs).gone
    ensures Slot(After(evs).slots, w) == |Held(After(evs).inflight, w)| + Displaced(evs, w)
  {
    GapIsDisplaced(evs, w);
  }

  // ----- the two claims that fail, on concrete runs -----

  ghost predicate Reachable(s: State) {
    exists evs :: Run(evs) && After(evs) == s
  }

  lemma Onward(s: State, ev: Event) returns (t: State)
    requires Reachable(s) && Enabled(s, ev)
    ensures t == Next(s, ev) && Reachable(t)
  {
    var evs :| Run(evs) && After(evs) == s;
    t := Next(s, ev);
    assert (evs + [ev])[..|evs + [ev]| - 1] == evs;
    assert Run(evs + [ev]) && After(evs + [ev]) == t;
  }

  const FIRST := Entry(0, 1, 0)
  const SECOND := Entry(1, 1, 1)

  lemma FirstSend() returns (s: State)
    ensures Reachable(s)
    ensures s == State(map[0 := Row(Queued, 1)], {}, multiset{}, multiset{}, multiset{},
                       map[0 := FIRST], map[0 := 1], {}, {}, Sending(0, FIRST), 1)
  {
    s := Init();
    assert Run([]) && After([]) == s;
    s := Onward(s, Submit(0));
    s := Onward(s, Enqueue(0));
    s := Onward(s, Pop(0));
    s := Onward(s, LockRow(0));
    s := Onward(s, Book);
  }

  lemma SendLosesItsWorker() returns (s: State)
    ensures Reachable(s)
    ensures s == State(map[0 := Row(Queued, 1)], {}, multiset{}, multiset{}, multiset{0},
                       map[], map[0 := 1], {0}, {}, Sending(0, FIRST), 1)
  {
    s := FirstSend();
    assert Held(map[0 := FIRST], 0) == {0};
    s := Onward(s, WorkerLost(0));
  }

  /** A worker dies during the send and the commit then fails: the job is lost
      and queued at the same time. */
  lemma LostAndQueued() returns (s: State)
    ensures Reachable(s)
    ensures s == State(map[0 := Row(Queued, 1)], {}, multiset{0}, multiset{}, multiset{0},
                       map[], map[0 := 1], {0}, {}, Idle, 1)
  {
    s := SendLosesItsWorker();
    s := Onward(s, DispatchRaises(false));
  }

  /** The queued job is popped, locked for worker 1 and booked there. */
  lemma Redispatch(s: State) returns (t: State)
    requires Reachable(s) && s.rows == map[0 := Row(Queued, 1)] && s.hand.Idle?
    requires 0 in s.queue && 1 !in s.gone && Slot(s.slots, 1) < DEPTH
    ensures Reachable(t)
    ensures t == s.(queue := s.queue - multiset{0}, inflight := s.inflight[0 := Entry(1, 1, s.nextId)],
                    slots := TakeSlot(s.slots, 1), hand := Sending(0, Entry(1, 1, s.nextId)),
                    nextId := s.nextId + 1)
  {
    t := Onward(s, Pop(0));
    t := Onward(t, LockRow(1));
    t := Onward(t, Book);
  }

  lemma BookedAndQueued() returns (s: State)
    ensures Reachable(s)
    ensures s == State(map[0 := Row(Queued, 1)], {}, multiset{0}, multiset{}, multiset{},
                       map[0 := SECOND], map[0 := 1, 1 := 1], {0}, {}, Idle, 2)
  {
    s := LostAndQueued();
    s := Onward(s, TakeLost(0));
    s := Onward(s, Requeue);
    s := Redispatch(s);
    s := Onward(s, DispatchRaises(false));
  }

  /** Two hints for one queued job and one more failed commit: the second
      booking displaces the first and its slot is never released. */
  lemma ASlotLeaks() returns (s: State)
    ensures Reachable(s) && 1 !in s.gone
    ensures Slot(s.slots, 1) == 2 && Held(s.inflight, 1) == {0}
  {
    s := BookedAndQueued();
    s := Redispatch(s);
  }

  lemma LostAndRunning() returns (s: State)
    ensures Reachable(s)
    ensures s == State(map[0 := Row(Running, 1)], {}, multiset{}, multiset{}, multiset{0},
                       map[0 := SECOND], map[0 := 1, 1 := 1], {0}, {}, Idle, 2)
  {
    s := LostAndQueued();
    s := Onward(s, TakeLost(0));
    s := Onward(s, RecoveryRaises(false));
    s := Redispatch(s);
    s := Onward(s, CommitRunning);
  }

  lemma StaleRecovery() returns (s: State)
    ensures Reachable(s)
    ensures s == State(map[0 := Row(Running, 1)], {}, multiset{}, multiset{}, multiset{},
                       map[0 := SECOND], map[0 := 1, 1 := 1], {0}, {Report(0, SECOND)}, Recovering(0), 2)
  {
    s := LostAndRunning();
    s := Onward(s, Hear(0));
    s := Onward(s, TakeLost(0));
  }

  /** The lost entry outlives a failed recovery and the job is dispatched
      meanwhile; its recovery then queues a second attempt beside the running
      first one. */
  lemma StaleEntry() returns (s: State)
    ensures Reachable(s)
    ensures s == State(map[0 := Row(Queued, 2)], {}, multiset{0}, multiset{}, multiset{},
                       map[0 := SECOND], map[0 := 1, 1 := 1], {0}, {Report(0, SECOND)}, Idle, 2)
  {
    s := StaleRecovery();
    s := Onward(s, Requeue);
    s := Onward(s, PushRequeued);
  }

  lemma HintDropped() returns (s: State)
    ensures Reachable(s)
    ensures s == State(map[0 := Row(Queued, 2)], {}, multiset{}, multiset{}, multiset{},
                       map[0 := SECOND], map[0 := 1, 1 := 1], {0}, {Report(0, SECOND)}, Idle, 2)
  {
    s := StaleEntry();
    s := Onward(s, Pop(0));
    s := Onward(s, DispatchRaises(false));
  }

  /** A failed read then drops the second attempt's hint because of the first
      attempt's entry, and the first attempt's report clears that entry: the
      job stays queued in the database and nothing in the process knows it. */
  lemma AJobIsStranded() returns (s: State)
    ensures Reachable(s) && Live(s, 0) && !Tracked(s, 0)
  {
    s := HintDropped();
    s := Onward(s, Clear(Report(0, SECOND)));
  }
}

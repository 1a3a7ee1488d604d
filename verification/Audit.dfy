/** The audit spool: an insert takes everything held so far and two gap markers
    with it, while other deliveries time out, overflow and spool behind it.

    A step is a stretch between two awaits; `applied` says whether an insert
    that raised or was cut off had reached the database all the same. */
module Audit {
  import opened Wrappers

  const SPOOL_LIMIT: nat := 1000

  /** What one insert carries, and the counters its markers report. */
  datatype Flight = Flight(record: nat, sent: seq<nat>, dropped: int, fellBack: int)

  /** The process state, then the audit table, then history. */
  datatype State = State(
    spool: seq<nat>, dropped: int, fellBack: int,
    waiting: set<nat>, flight: Option<Flight>,
    inserted: set<nat>, markedDropped: int, markedFellBack: int,
    recorded: set<nat>, discarded: set<nat>,
    everDropped: int, everFellBack: int, repeatedDropped: int, repeatedFellBack: int)

  datatype Event =
    | Record(record: nat)
    | TakeLock(record: nat)
    | Inserted
    | InsertFails(applied: bool)     // it raised, or its delivery timed out
    | WaitTimesOut(record: nat)
    | CallerGone(record: nat)        // the recording task itself is cancelled
    | CallerGoneInFlight(applied: bool)

  function Init(): State {
    State([], 0, 0, {}, None, {}, 0, 0, {}, {}, 0, 0, 0, 0)
  }

  function Elements(s: seq<nat>): set<nat> { set x | x in s }

  /** How many of the oldest a push discards. */
  function Overflow(spool: seq<nat>): nat {
    if |spool| < SPOOL_LIMIT then 0 else |spool| - SPOOL_LIMIT + 1
  }

  function Pushed(spool: seq<nat>, record: nat): seq<nat> {
    spool[Overflow(spool)..] + [record]
  }

  /** Removes what was sent, as far as it still heads the spool. */
  function Settled(spool: seq<nat>, sent: seq<nat>): seq<nat>
    decreases |sent|
  {
    if sent == [] then spool
    else Settled(if spool != [] && spool[0] == sent[0] then spool[1..] else spool, sent[1..])
  }

  function Push(s: State, record: nat): State {
    var n := Overflow(s.spool);
    s.(spool := Pushed(s.spool, record), dropped := s.dropped + n, everDropped := s.everDropped + n,
       discarded := s.discarded + Elements(s.spool[..n]))
  }

  /** The delivery failed: counted, logged and spooled. */
  function FallBack(s: State, record: nat): State {
    Push(s.(fellBack := s.fellBack + 1, everFellBack := s.everFellBack + 1), record)
  }

  /** The rows one insert leaves behind. */
  function Stored(s: State, f: Flight): State {
    s.(inserted := s.inserted + Elements(f.sent) + {f.record},
       markedDropped := s.markedDropped + f.dropped,
       markedFellBack := s.markedFellBack + f.fellBack)
  }

  /** An insert whose effect its sender does not know of will be repeated. */
  function StoredUnknown(s: State, f: Flight, applied: bool): State {
    if applied then
      Stored(s, f).(repeatedDropped := s.repeatedDropped + f.dropped,
                    repeatedFellBack := s.repeatedFellBack + f.fellBack)
    else s
  }

  predicate Enabled(s: State, ev: Event) {
    match ev
    case Record(e) => e !in s.recorded
    case TakeLock(e) => e in s.waiting && s.flight.None?
    case Inserted => s.flight.Some?
    case InsertFails(_) => s.flight.Some?
    case WaitTimesOut(e) => e in s.waiting
    case CallerGone(e) => e in s.waiting
    case CallerGoneInFlight(_) => s.flight.Some?
  }

  function Next(s: State, ev: Event): State
    requires Enabled(s, ev)
  {
    match ev
    case Record(e) => s.(recorded := s.recorded + {e}, waiting := s.waiting + {e})
    case TakeLock(e) =>
      s.(waiting := s.waiting - {e}, flight := Some(Flight(e, s.spool, s.dropped, s.fellBack)))
    case Inserted =>
      var f := s.flight.value;
      Stored(s, f).(spool := Settled(s.spool, f.sent), dropped := s.dropped - f.dropped,
                    fellBack := s.fellBack - f.fellBack, flight := None)
    case InsertFails(applied) =>
      var f := s.flight.value;
      FallBack(StoredUnknown(s, f, applied), f.record).(flight := None)
    case WaitTimesOut(e) => FallBack(s, e).(waiting := s.waiting - {e})
    case CallerGone(e) => s.(waiting := s.waiting - {e})
    case CallerGoneInFlight(applied) => StoredUnknown(s, s.flight.value, applied).(flight := None)
  }

  predicate Run(evs: seq<Event>)
    decreases |evs|, 0
  {
    evs == [] || (Run(evs[..|evs| - 1]) && Enabled(After(evs[..|evs| - 1]), evs[|evs| - 1]))
  }

  function After(evs: seq<Event>): State
    requires Run(evs)
    decreases |evs|, 1
  {
    if evs == [] then Init() else Next(After(evs[..|evs| - 1]), evs[|evs| - 1])
  }

  // ----- the spool while an insert is in flight -----

  predicate Distinct(s: seq<nat>) {
    forall i, j | 0 <= i < j < |s| :: s[i] != s[j]
  }

  /** What was sent still heads the spool, except for what overflow took. */
  predicate Behind(spool: seq<nat>, sent: seq<nat>, k: nat) {
    k <= |sent| && |sent| - k <= |spool| && spool[..|sent| - k] == sent[k..]
    && forall x | x in spool[|sent| - k..] :: x !in sent
  }

  lemma {:induction false} SettleSkips(spool: seq<nat>, sent: seq<nat>)
    requires forall x | x in spool :: x !in sent
    ensures Settled(spool, sent) == spool
    decreases |sent|
  {
    if sent != [] {
      assert forall x | x in sent[1..] :: x in sent;
      assert spool != [] ==> spool[0] in spool;
      SettleSkips(spool, sent[1..]);
    }
  }

  /** Settling removes exactly what is left of the records that were sent. */
  lemma {:induction false} SettleRemovesTheSent(spool: seq<nat>, sent: seq<nat>, k: nat)
    requires Distinct(sent) && Behind(spool, sent, k)
    ensures Settled(spool, sent) == spool[|sent| - k..]
    decreases |sent|
  {
    if sent == [] {
    } else if k == |sent| {
      SettleSkips(spool, sent);
    } else if k > 0 {
      assert spool[0] == sent[k];
      assert sent[1..][k - 1..] == sent[k..];
      assert forall x | x in sent[1..] :: x in sent;
      SettleRemovesTheSent(spool, sent[1..], k - 1);
    } else {
      assert spool[0] == sent[0];
      assert spool[1..][..|sent| - 1] == sent[1..];
      assert spool[1..][|sent| - 1..] == spool[|sent|..];
      assert forall x | x in sent[1..] :: x in sent;
      SettleRemovesTheSent(spool[1..], sent[1..], 0);
    }
  }

  // ----- every record is somewhere -----

  function InFlight(s: State): set<nat> {
    if s.flight.Some? then {s.flight.value.record} else {}
  }

  predicate Accounted(s: State, e: nat) {
    || e in s.inserted || e in s.waiting || e in InFlight(s) || e in s.spool || e in s.discarded
  }

  /** Recorded once, and now nowhere: neither in the table, nor on its way
      there, nor counted as dropped. */
  predicate Lost(s: State, e: nat) {
    e in s.recorded && !Accounted(s, e)
  }

  predicate SpoolInv(s: State) {
    && Distinct(s.spool) && |s.spool| <= SPOOL_LIMIT
    && (forall x | x in s.spool :: x in s.recorded && x !in s.waiting && x !in InFlight(s) && x !in s.discarded)
    && (forall x | x in s.waiting :: x in s.recorded && x !in InFlight(s) && x !in s.discarded)
    && (forall x | x in s.discarded :: x in s.recorded && x !in InFlight(s))
    && InFlight(s) <= s.recorded
    && (forall x | x in s.inserted :: x in s.recorded && x !in s.waiting && x !in InFlight(s))
  }

  ghost predicate FlightInv(s: State) {
    s.flight.Some? ==>
      var f := s.flight.value;
      && Distinct(f.sent) && (exists k: nat :: Behind(s.spool, f.sent, k))
      && f.record !in f.sent && (forall x | x in f.sent :: x in s.recorded && x !in s.waiting)
      && (forall x | x in f.sent :: x in s.spool || x in s.discarded)
      && 0 <= f.dropped <= s.dropped && 0 <= f.fellBack <= s.fellBack
  }

  predicate CountInv(s: State) {
    && |s.discarded| == s.everDropped && 0 <= s.dropped && 0 <= s.fellBack
    && 0 <= s.repeatedDropped && 0 <= s.repeatedFellBack
    && s.dropped + s.markedDropped == s.everDropped + s.repeatedDropped
    && s.fellBack + s.markedFellBack == s.everFellBack + s.repeatedFellBack
  }

  ghost predicate Inv(s: State) {
    SpoolInv(s) && FlightInv(s) && CountInv(s)
  }

  /** Of a spool of distinct records a push discards at most the oldest one. */
  lemma PushDiscards(spool: seq<nat>)
    requires Distinct(spool) && |spool| <= SPOOL_LIMIT
    ensures var n := Overflow(spool);
      && n <= 1 && |Elements(spool[..n])| == n
      && (forall x | x in spool :: x in spool[n..] <==> x !in Elements(spool[..n]))
      && (forall x | x in Elements(spool[..n]) :: x in spool)
  {
    if Overflow(spool) == 1 {
      assert spool == [spool[0]] + spool[1..];
      assert Elements(spool[..1]) == {spool[0]};
    } else {
      assert Elements(spool[..0]) == {};
    }
  }

  lemma PushKeeps(s: State, e: nat)
    requires SpoolInv(s) && CountInv(s)
    requires e in s.recorded && e !in s.spool && e !in s.discarded
    ensures var t := Push(s, e);
      && Distinct(t.spool) && |t.spool| <= SPOOL_LIMIT && |t.discarded| == t.everDropped
      && (forall x | x in t.spool :: (x in s.spool || x == e) && x !in t.discarded)
      && (forall x | x in t.discarded :: x in s.discarded || x in s.spool)
      && (forall x | x in s.spool :: x in t.spool || x in t.discarded)
      && e in t.spool
  {
    PushDiscards(s.spool);
    var out := Elements(s.spool[..Overflow(s.spool)]);
    assert |s.discarded + out| == |s.discarded| + |out|;
  }

  lemma PushKeepsBehind(spool: seq<nat>, e: nat, sent: seq<nat>, k: nat)
    requires Behind(spool, sent, k) && e !in sent && |spool| <= SPOOL_LIMIT
    ensures exists k': nat :: Behind(Pushed(spool, e), sent, k')
  {
    var n := Overflow(spool);
    if n == 0 || k == |sent| {
      assert Behind(Pushed(spool, e), sent, k);
    } else {
      assert spool[0] == sent[k];
      assert spool[1..][..|sent| - k - 1] == sent[k + 1..];
      assert Behind(Pushed(spool, e), sent, k + 1);
    }
  }

  /** The step of a record that waits, into the spool. */
  lemma FallBackKeeps(s: State, e: nat)
    requires Inv(s) && e in s.waiting
    ensures Inv(FallBack(s, e).(waiting := s.waiting - {e}))
  {
    PushKeeps(s.(fellBack := s.fellBack + 1, everFellBack := s.everFellBack + 1), e);
    if s.flight.Some? {
      var k: nat :| Behind(s.spool, s.flight.value.sent, k);
      PushKeepsBehind(s.spool, e, s.flight.value.sent, k);
    }
  }

  lemma UnknownKeeps(s: State, applied: bool)
    requires Inv(s) && s.flight.Some?
    ensures Inv(StoredUnknown(s, s.flight.value, applied).(flight := None))
  {
  }

  /** The record of a failed insert falls back like one that timed out. */
  lemma InsertFailsKeeps(s: State, applied: bool)
    requires Inv(s) && s.flight.Some?
    ensures Inv(Next(s, InsertFails(applied)))
  {
    var f := s.flight.value;
    UnknownKeeps(s, applied);
    var t := StoredUnknown(s, f, applied).(flight := None);
    PushKeeps(t.(fellBack := t.fellBack + 1, everFellBack := t.everFellBack + 1), f.record);
  }

  /** After settling, the spool holds what it held except for what was sent. */
  lemma SettledHolds(spool: seq<nat>, sent: seq<nat>, k: nat)
    requires Distinct(spool) && Distinct(sent) && Behind(spool, sent, k)
    ensures Distinct(Settled(spool, sent)) && |Settled(spool, sent)| <= |spool|
    ensures forall x | x in Settled(spool, sent) :: x in spool
    ensures forall x | x in spool :: x in Settled(spool, sent) || x in Elements(sent)
  {
    SettleRemovesTheSent(spool, sent, k);
    var gone := |sent| - k;
    assert spool == spool[..gone] + spool[gone..];
    assert forall x | x in spool[..gone] :: x in sent[k..];
  }

  lemma InsertedKeeps(s: State)
    requires Inv(s) && s.flight.Some?
    ensures Inv(Next(s, Inserted))
  {
    var f := s.flight.value;
    var k: nat :| Behind(s.spool, f.sent, k);
    SettledHolds(s.spool, f.sent, k);
  }

  lemma NextKeepsInv(s: State, ev: Event)
    requires Inv(s) && Enabled(s, ev)
    ensures Inv(Next(s, ev))
  {
    match ev
    case Inserted => InsertedKeeps(s);
    case InsertFails(applied) => InsertFailsKeeps(s, applied);
    case WaitTimesOut(e) => FallBackKeeps(s, e);
    case CallerGoneInFlight(applied) => UnknownKeeps(s, applied);
    case TakeLock(e) => assert Behind(s.spool, s.spool, 0);
    case _ =>
  }

  lemma {:induction false} RunKeepsInv(evs: seq<Event>)
    requires Run(evs)
    ensures Inv(After(evs))
  {
    if evs != [] {
      RunKeepsInv(evs[..|evs| - 1]);
      NextKeepsInv(After(evs[..|evs| - 1]), evs[|evs| - 1]);
    }
  }

  // ----- what is lost -----

  /** The task recording `e` is cancelled, and no insert of `e` took effect. */
  predicate Silences(s: State, ev: Event, e: nat) {
    ev == CallerGone(e) || (ev == CallerGoneInFlight(false) && e in InFlight(s))
  }

  predicate Silenced(evs: seq<Event>, e: nat)
    requires Run(evs)
  {
    exists i | 0 <= i < |evs| :: SilencedAt(evs, i, e)
  }

  predicate SilencedAt(evs: seq<Event>, i: nat, e: nat)
    requires i < |evs|
  {
    Run(evs[..i]) && Silences(After(evs[..i]), evs[i], e)
  }

  lemma SilencedStep(evs: seq<Event>, e: nat)
    requires Run(evs) && evs != []
    ensures var before := evs[..|evs| - 1];
      Silenced(evs, e) <==> Silenced(before, e) || Silences(After(before), evs[|evs| - 1], e)
  {
    var before := evs[..|evs| - 1];
    forall i: nat | i < |before|
      ensures SilencedAt(evs, i, e) <==> SilencedAt(before, i, e)
    {
      assert before[..i] == evs[..i];
    }
    if Silenced(evs, e) {
      var i: nat :| i < |evs| && SilencedAt(evs, i, e);
      assert i < |before| ==> SilencedAt(before, i, e);
    }
    if Silenced(before, e) {
      var i: nat :| i < |before| && SilencedAt(before, i, e);
      assert SilencedAt(evs, i, e);
    }
    if Silences(After(before), evs[|evs| - 1], e) {
      assert SilencedAt(evs, |evs| - 1, e);
    }
  }

  lemma FallBackLosesNothing(s: State, e: nat, x: nat)
    requires SpoolInv(s) && CountInv(s) && e in s.recorded && e !in s.spool && e !in s.discarded
    ensures Lost(FallBack(s, e).(waiting := s.waiting - {e}), x) <==> Lost(s, x) && x != e
  {
    PushKeeps(s.(fellBack := s.fellBack + 1, everFellBack := s.everFellBack + 1), e);
  }

  lemma LostAfterInsert(s: State, e: nat)
    requires Inv(s) && s.flight.Some?
    ensures Lost(Next(s, Inserted), e) <==> Lost(s, e)
  {
    var f := s.flight.value;
    var k: nat :| Behind(s.spool, f.sent, k);
    SettledHolds(s.spool, f.sent, k);
  }

  lemma LostAfterFailure(s: State, applied: bool, e: nat)
    requires Inv(s) && s.flight.Some?
    ensures Lost(Next(s, InsertFails(applied)), e) <==> Lost(s, e)
  {
    var f := s.flight.value;
    UnknownKeeps(s, applied);
    var t := StoredUnknown(s, f, applied).(flight := None);
    FallBackLosesNothing(t, f.record, e);
    assert t.waiting - {f.record} == t.waiting;
  }

  /** One step loses a record exactly when it silences it, and nothing brings a
      lost record back. */
  lemma LostStep(s: State, ev: Event, e: nat)
    requires Inv(s) && Enabled(s, ev)
    ensures Lost(Next(s, ev), e) <==> Lost(s, e) || Silences(s, ev, e)
  {
    match ev
    case Inserted => LostAfterInsert(s, e);
    case InsertFails(applied) => LostAfterFailure(s, applied, e);
    case WaitTimesOut(x) => FallBackLosesNothing(s, x, e);
    case _ =>
  }

  /** Over every run a record is lost, for good, if and only if the task that
      recorded it was cancelled while it waited, or while it flew in an insert
      that did not reach the database.  Timeouts, failures and overflow lose
      nothing. */
  lemma {:induction false} LostExactlyByCancellation(evs: seq<Event>, e: nat)
    requires Run(evs)
    ensures Lost(After(evs), e) <==> Silenced(evs, e)
  {
    if evs != [] {
      var before := evs[..|evs| - 1];
      LostExactlyByCancellation(before, e);
      RunKeepsInv(before);
      LostStep(After(before), evs[|evs| - 1], e);
      SilencedStep(evs, e);
    }
  }

  lemma Extend(evs: seq<Event>, ev: Event)
    requires Run(evs) && Enabled(After(evs), ev)
    ensures Run(evs + [ev]) && After(evs + [ev]) == Next(After(evs), ev)
  {
    assert (evs + [ev])[..|evs + [ev]| - 1] == evs;
  }

  /** Such runs exist: a task cancelled while it waits, and one cancelled while
      its insert, which then fails, is under way. */
  lemma RecordsAreLost() returns (waited: seq<Event>, flew: seq<Event>)
    ensures Run(waited) && Lost(After(waited), 0)
    ensures Run(flew) && Lost(After(flew), 0)
  {
    Extend([], Record(0));
    var one := [] + [Record(0)];
    Extend(one, CallerGone(0));
    waited := one + [CallerGone(0)];
    Extend(one, TakeLock(0));
    var two := one + [TakeLock(0)];
    Extend(two, CallerGoneInFlight(false));
    flew := two + [CallerGoneInFlight(false)];
  }

  /** A record is in the table, waiting, in flight, spooled, or among the records
      counted as dropped, unless it was silenced; and the spool never exceeds
      its limit. */
  lemma NothingVanishes(evs: seq<Event>, e: nat)
    requires Run(evs) && e in After(evs).recorded
    ensures Accounted(After(evs), e) <==> !Silenced(evs, e)
    ensures |After(evs).spool| <= SPOOL_LIMIT
  {
    LostExactlyByCancellation(evs, e);
    RunKeepsInv(evs);
  }

  /** The gap is never under-reported: what was ever dropped or fell back is
      covered by the live counters and the inserted markers, exactly so unless
      an insert took effect without its sender learning of it. */
  lemma GapIsReported(evs: seq<Event>)
    requires Run(evs)
    ensures var s := After(evs);
      && |s.discarded| == s.everDropped <= s.dropped + s.markedDropped
      && s.everFellBack <= s.fellBack + s.markedFellBack
      && 0 <= s.dropped && 0 <= s.fellBack
    ensures (forall ev | ev in evs :: (ev.InsertFails? || ev.CallerGoneInFlight?) ==> !ev.applied) ==>
      var s := After(evs);
      s.everDropped == s.dropped + s.markedDropped && s.everFellBack == s.fellBack + s.markedFellBack
  {
    RunKeepsInv(evs);
    if forall ev | ev in evs :: (ev.InsertFails? || ev.CallerGoneInFlight?) ==> !ev.applied {
      NothingRepeated(evs);
    }
  }

  lemma {:induction false} NothingRepeated(evs: seq<Event>)
    requires Run(evs)
    requires forall ev | ev in evs :: (ev.InsertFails? || ev.CallerGoneInFlight?) ==> !ev.applied
    ensures After(evs).repeatedDropped == After(evs).repeatedFellBack == 0
  {
    if evs != [] {
      var before := evs[..|evs| - 1];
      assert evs[|evs| - 1] in evs && forall ev | ev in before :: ev in evs;
      NothingRepeated(before);
    }
  }

  // ----- what reaches the table -----

  predicate Carries(f: Flight, e: nat) { e == f.record || e in f.sent }

  /** The step ends an insert that carries `e` and took effect, known or not. */
  predicate Inserts(s: State, ev: Event, e: nat) {
    && s.flight.Some? && Carries(s.flight.value, e)
    && (ev.Inserted? || ev == InsertFails(true) || ev == CallerGoneInFlight(true))
  }

  predicate EverInserted(evs: seq<Event>, e: nat)
    requires Run(evs)
  {
    evs != [] &&
    var before := evs[..|evs| - 1];
    EverInserted(before, e) || Inserts(After(before), evs[|evs| - 1], e)
  }

  lemma InsertedStep(s: State, ev: Event, e: nat)
    requires Enabled(s, ev)
    ensures e in Next(s, ev).inserted <==> e in s.inserted || Inserts(s, ev, e)
  {
    match ev
    case Record(_) =>
    case TakeLock(_) =>
    case Inserted =>
    case InsertFails(_) =>
    case WaitTimesOut(_) =>
    case CallerGone(_) =>
    case CallerGoneInFlight(_) =>
  }

  /** A record is in the table exactly when an insert carried it there. */
  lemma {:induction false} InsertedExactly(evs: seq<Event>, e: nat)
    requires Run(evs)
    ensures e in After(evs).inserted <==> EverInserted(evs, e)
  {
    if evs != [] {
      InsertedExactly(evs[..|evs| - 1], e);
      InsertedStep(After(evs[..|evs| - 1]), evs[|evs| - 1], e);
    }
  }

  predicate EndsFlight(ev: Event) { ev.Inserted? || ev.InsertFails? || ev.CallerGoneInFlight? }

  lemma FlightStep(s: State, ev: Event)
    requires Enabled(s, ev) && s.flight.Some? && !EndsFlight(ev)
    ensures Next(s, ev).flight == s.flight
  {
  }

  lemma PrefixRuns(evs: seq<Event>, n: nat)
    requires Run(evs) && n < |evs|
    ensures Run(evs[..n]) && Enabled(After(evs[..n]), evs[n])
    ensures Run(evs[..n + 1]) && After(evs[..n + 1]) == Next(After(evs[..n]), evs[n])
  {
    if n == |evs| - 1 {
      assert evs[..n + 1] == evs;
    } else {
      PrefixRuns(evs[..|evs| - 1], n);
      assert evs[..|evs| - 1][..n] == evs[..n] && evs[..|evs| - 1][..n + 1] == evs[..n + 1];
    }
  }

  lemma {:induction false} FlightStays(evs: seq<Event>, i: nat, k: nat)
    requires Run(evs) && i < k <= |evs| && evs[i].TakeLock? && Run(evs[..i]) && Run(evs[..k])
    requires forall m | i < m < k :: !EndsFlight(evs[m])
    ensures After(evs[..k]).flight
         == Some(Flight(evs[i].record, After(evs[..i]).spool, After(evs[..i]).dropped, After(evs[..i]).fellBack))
    decreases k
  {
    PrefixRuns(evs, k - 1);
    if k > i + 1 {
      FlightStays(evs, i, k - 1);
      FlightStep(After(evs[..k - 1]), evs[k - 1]);
    }
  }

  /** An insert that is begun at step i and known to have succeeded at step k has
      taken its own record and everything spooled when it began, and none of
      that is still spooled. */
  lemma FlushesTheSpool(evs: seq<Event>, i: nat, k: nat, e: nat)
    requires Run(evs) && i < k < |evs| && evs[i].TakeLock? && evs[k].Inserted?
    requires Run(evs[..i]) && Run(evs[..k]) && Run(evs[..k + 1])
    requires forall m | i < m < k :: !EndsFlight(evs[m])
    requires e == evs[i].record || e in After(evs[..i]).spool
    ensures e in After(evs[..k + 1]).inserted && e !in After(evs[..k + 1]).spool
  {
    PrefixRuns(evs, k);
    FlightStays(evs, i, k);
    RunKeepsInv(evs[..k]);
    var s := After(evs[..k]);
    var f := s.flight.value;
    var n: nat :| Behind(s.spool, f.sent, n);
    SettleRemovesTheSent(s.spool, f.sent, n);
  }

  // ----- the oldest go first -----

  /** The records that fell back to the spool, in the order they did. */
  function Fallen(evs: seq<Event>): seq<nat>
    requires Run(evs)
  {
    if evs == [] then []
    else
      var before, ev := evs[..|evs| - 1], evs[|evs| - 1];
      match ev
      case WaitTimesOut(e) => Fallen(before) + [e]
      case InsertFails(_) => Fallen(before) + [After(before).flight.value.record]
      case _ => Fallen(before)
  }

  predicate Precedes(fallen: seq<nat>, x: nat, y: nat) {
    exists p, q | 0 <= p < q < |fallen| :: fallen[p] == x && fallen[q] == y
  }

  predicate Orderly(fallen: seq<nat>, spool: seq<nat>, discarded: set<nat>) {
    && (forall x | x in spool :: x in fallen)
    && (forall a, b | 0 <= a < b < |spool| :: Precedes(fallen, spool[a], spool[b]))
    && (forall d, y | d in discarded && y in spool :: Precedes(fallen, d, y))
    && (forall d | d in discarded :: d in fallen)
  }

  lemma StillPrecedes(fallen: seq<nat>, e: nat, x: nat, y: nat)
    requires Precedes(fallen, x, y) || (x in fallen && y == e)
    ensures Precedes(fallen + [e], x, y)
  {
    var more := fallen + [e];
    if Precedes(fallen, x, y) {
      var p, q :| 0 <= p < q < |fallen| && fallen[p] == x && fallen[q] == y;
      assert more[p] == x && more[q] == y;
    } else {
      var p :| 0 <= p < |fallen| && fallen[p] == x;
      assert more[p] == x && more[|fallen|] == e;
    }
  }

  lemma OneMoreFallen(fallen: seq<nat>, spool: seq<nat>, discarded: set<nat>, e: nat)
    requires Orderly(fallen, spool, discarded)
    ensures Orderly(fallen + [e], spool + [e], discarded)
  {
    var more := spool + [e];
    forall a, b | 0 <= a < b < |more|
      ensures Precedes(fallen + [e], more[a], more[b])
    {
      StillPrecedes(fallen, e, more[a], more[b]);
    }
    forall d, y | d in discarded && y in more
      ensures Precedes(fallen + [e], d, y)
    {
      StillPrecedes(fallen, e, d, y);
    }
  }

  /** Taking records off the front keeps the order, whether they are counted as
      discarded or not. */
  lemma FrontLeaves(fallen: seq<nat>, spool: seq<nat>, discarded: set<nat>, n: nat)
    requires Orderly(fallen, spool, discarded) && n <= |spool|
    ensures Orderly(fallen, spool[n..], discarded)
    ensures Orderly(fallen, spool[n..], discarded + Elements(spool[..n]))
  {
    var rest := spool[n..];
    assert forall x | x in rest :: x in spool;
    forall d, y | d in Elements(spool[..n]) && y in rest
      ensures Precedes(fallen, d, y)
    {
      var a :| 0 <= a < n && spool[a] == d;
      var b :| 0 <= b < |rest| && rest[b] == y;
      assert spool[n + b] == y;
    }
  }

  lemma PushKeepsOrder(fallen: seq<nat>, s: State, e: nat)
    requires Orderly(fallen, s.spool, s.discarded)
    ensures Orderly(fallen + [e], Push(s, e).spool, Push(s, e).discarded)
  {
    FrontLeaves(fallen, s.spool, s.discarded, Overflow(s.spool));
    OneMoreFallen(fallen, s.spool[Overflow(s.spool)..], s.discarded + Elements(s.spool[..Overflow(s.spool)]), e);
  }

  lemma {:induction false} RunKeepsOrder(evs: seq<Event>)
    requires Run(evs)
    ensures Orderly(Fallen(evs), After(evs).spool, After(evs).discarded)
  {
    if evs != [] {
      var before, ev := evs[..|evs| - 1], evs[|evs| - 1];
      var s := After(before);
      RunKeepsOrder(before);
      RunKeepsInv(before);
      match ev
      case WaitTimesOut(e) =>
        PushKeepsOrder(Fallen(before), s.(fellBack := s.fellBack + 1, everFellBack := s.everFellBack + 1), e);
      case InsertFails(applied) =>
        var t := StoredUnknown(s, s.flight.value, applied);
        PushKeepsOrder(Fallen(before), t.(fellBack := t.fellBack + 1, everFellBack := t.everFellBack + 1),
                       s.flight.value.record);
      case Inserted =>
        var f := s.flight.value;
        var n: nat :| Behind(s.spool, f.sent, n);
        SettleRemovesTheSent(s.spool, f.sent, n);
        FrontLeaves(Fallen(before), s.spool, s.discarded, |f.sent| - n);
      case _ =>
    }
  }

  /** A record falls back once at most. */
  lemma {:induction false} FallsOnce(evs: seq<Event>)
    requires Run(evs)
    ensures Distinct(Fallen(evs))
    ensures forall x | x in Fallen(evs) :: x in After(evs).recorded && x !in After(evs).waiting && x !in InFlight(After(evs))
  {
    if evs != [] {
      var before := evs[..|evs| - 1];
      FallsOnce(before);
      RunKeepsInv(before);
      match evs[|evs| - 1]
      case Record(_) =>
      case TakeLock(_) =>
      case Inserted =>
      case InsertFails(_) =>
      case WaitTimesOut(_) =>
      case CallerGone(_) =>
      case CallerGoneInFlight(_) =>
    }
  }

  /** The two counters behind the markers count exactly the fall-backs and the
      drops that happened. */
  lemma {:induction false} FallBacksAreCounted(evs: seq<Event>)
    requires Run(evs)
    ensures After(evs).everFellBack == |Fallen(evs)| && After(evs).everDropped == |After(evs).discarded|
  {
    RunKeepsInv(evs);
    if evs != [] {
      FallBacksAreCounted(evs[..|evs| - 1]);
      match evs[|evs| - 1]
      case Record(_) =>
      case TakeLock(_) =>
      case Inserted =>
      case InsertFails(_) =>
      case WaitTimesOut(_) =>
      case CallerGone(_) =>
      case CallerGoneInFlight(_) =>
    }
  }

  /** A record is dropped only by one that falls back while a thousand are
      held, and then only the oldest of them. */
  lemma DropsOnlyWhenFull(evs: seq<Event>, ev: Event, d: nat)
    requires Run(evs) && Enabled(After(evs), ev)
    requires d in Next(After(evs), ev).discarded && d !in After(evs).discarded
    ensures |After(evs).spool| == 1000 && d == After(evs).spool[0]
    ensures ev.WaitTimesOut? || ev.InsertFails?
  {
    RunKeepsInv(evs);
    PushDiscards(After(evs).spool);
  }

  /** The spool holds what fell back in the order it fell, and overflow drops the
      oldest: whatever was dropped had fallen back before everything held. */
  lemma OldestGoFirst(evs: seq<Event>, a: nat, b: nat)
    requires Run(evs) && b < |After(evs).spool|
    ensures Distinct(Fallen(evs))
    ensures a < b ==> Precedes(Fallen(evs), After(evs).spool[a], After(evs).spool[b])
    ensures a in After(evs).discarded ==> Precedes(Fallen(evs), a, After(evs).spool[b])
  {
    RunKeepsOrder(evs);
    FallsOnce(evs);
  }

  // ----- the process state, updated in place -----

  class Spool {
    var records: seq<nat>
    var dropped: int
    var fellBack: int

    constructor ()
      ensures records == [] && dropped == 0 && fellBack == 0
    {
      records, dropped, fellBack := [], 0, 0;
    }

    method PushRecord(record: nat)
      modifies this`records, this`dropped
      ensures records == Pushed(old(records), record)
      ensures dropped == old(dropped) + Overflow(old(records))
    {
      ghost var before, popped := records, 0;
      while |records| >= SPOOL_LIMIT
        invariant 0 <= popped <= Overflow(before)
        invariant records == before[popped..] && dropped == old(dropped) + popped
        decreases |records|
      {
        records := records[1..];
        dropped := dropped + 1;
        popped := popped + 1;
      }
      records := records + [record];
    }

    /** What `_deliver_locked` does once its insert has committed. */
    method Settle(sent: seq<nat>, wereDropped: int, wereFellBack: int)
      modifies this
      ensures records == Settled(old(records), sent)
      ensures dropped == old(dropped) - wereDropped && fellBack == old(fellBack) - wereFellBack
    {
      for i := 0 to |sent|
        invariant Settled(records, sent[i..]) == Settled(old(records), sent)
        invariant dropped == old(dropped) && fellBack == old(fellBack)
      {
        assert sent[i..][0] == sent[i] && sent[i..][1..] == sent[i + 1..];
        if records != [] && records[0] == sent[i] {
          records := records[1..];
        }
      }
      dropped := dropped - wereDropped;
      fellBack := fellBack - wereFellBack;
    }
  }
}

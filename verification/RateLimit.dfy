/** Timed admission on the sign-in path: a ten minute window and a doubling
    delay per subject, a ceiling per identifier, and per caller address a queue
    of turns that is never deeper than thirty seconds.

    Times are real seconds.  A charge reads the clock before it waits for the
    row lock (`asked`) and a reservation reads it again once it holds the lock
    (`now`); only the second is ordered like the transactions themselves. */
module RateLimit {
  import opened Wrappers

  const WINDOW: real := 600.0
  const IDENTIFIER_LIMIT: nat := 10
  const FREE_ATTEMPTS: nat := 5
  const MAX_DELAY: real := 8.0
  const MAX_QUEUE: real := 30.0
  /** The first power of two that no double can hold is 2^1024. */
  const FIRST_OVERFLOW: nat := 1024

  function Pow2(n: nat): nat {
    if n == 0 then 1 else 2 * Pow2(n - 1)
  }

  /** None when converting the power to a float overflows. */
  function DelayFor(attempts: nat): Option<real> {
    if attempts <= FREE_ATTEMPTS then Some(0.0)
    else if attempts - FREE_ATTEMPTS - 1 >= FIRST_OVERFLOW then None
    else
      var delay := 0.5 * Pow2(attempts - FREE_ATTEMPTS - 1) as real;
      Some(if delay < MAX_DELAY then delay else MAX_DELAY)
  }

  lemma {:induction false} Pow2Grows(n: nat)
    requires n >= 4
    ensures Pow2(n) >= 16
  {
    if n > 4 {
      Pow2Grows(n - 1);
    }
  }

  /** Nothing for five attempts, then half a second doubling to eight; and from
      the 1030th attempt of a window on, no delay at all can be computed. */
  lemma Delays(attempts: nat)
    ensures DelayFor(attempts).None? <==> attempts >= 1030
    ensures attempts <= 5 ==> DelayFor(attempts) == Some(0.0)
    ensures DelayFor(6) == Some(0.5) && DelayFor(7) == Some(1.0)
    ensures DelayFor(8) == Some(2.0) && DelayFor(9) == Some(4.0)
    ensures 10 <= attempts < 1030 ==> DelayFor(attempts) == Some(MAX_DELAY)
  {
    assert Pow2(0) == 1 && Pow2(1) == 2 && Pow2(2) == 4 && Pow2(3) == 8;
    if 10 <= attempts {
      Pow2Grows(attempts - FREE_ATTEMPTS - 1);
    }
  }

  datatype Row = Row(attempts: nat, expires: real, notBefore: Option<real>)

  /** An expired row is reset: the window opens at the attempt that resets it,
      and the turn goes with the old window. */
  function Charge(row: Option<Row>, asked: real): Row {
    if row.None? || row.value.expires <= asked then Row(1, asked + WINDOW, None)
    else row.value.(attempts := row.value.attempts + 1)
  }

  datatype Answer = Admitted(turn: real) | Busy | Failed

  /** The turn this attempt would take. */
  function Turn(row: Row, now: real): Option<real> {
    var from := if row.notBefore.Some? && row.notBefore.value > now then row.notBefore.value else now;
    if DelayFor(row.attempts).None? then None else Some(from + DelayFor(row.attempts).value)
  }

  function Answered(row: Row, now: real): Answer {
    if Turn(row, now).None? then Failed
    else if Turn(row, now).value - now > MAX_QUEUE then Busy
    else Admitted(Turn(row, now).value)
  }

  /** The row after the transaction: a refusal leaves the queue where it was,
      a failure rolls the charge back. */
  function Reserve(row: Option<Row>, asked: real, now: real): Option<Row> {
    var charged := Charge(row, asked);
    match Answered(charged, now)
    case Admitted(turn) => Some(charged.(notBefore := Some(turn)))
    case Busy => Some(charged)
    case Failed => row
  }

  // ----- one address over a run of attempts -----

  datatype Attempt = Attempt(asked: real, now: real)

  datatype Event = Ask(attempt: Attempt) | Prune(at: real)

  /** What happened to an address in its current window. */
  datatype Address = Address(
    row: Option<Row>,
    since: real,
    turns: seq<real>,
    numbers: seq<nat>,
    latest: Option<real>,
    clock: real)

  predicate Fresh(row: Option<Row>, asked: real) {
    row.None? || row.value.expires <= asked
  }

  function Asked(s: Address, a: Attempt): Address {
    var charged := Charge(s.row, a.asked);
    var t := if Fresh(s.row, a.asked) then s.(since := a.asked, turns := [], numbers := []) else s;
    var u := t.(row := Reserve(s.row, a.asked, a.now), clock := a.now);
    match Answered(charged, a.now)
    case Admitted(turn) =>
      u.(turns := t.turns + [turn], numbers := t.numbers + [charged.attempts], latest := Some(a.now))
    case Busy => u
    case Failed => s.(clock := a.now)
  }

  function Next(s: Address, ev: Event): Address {
    match ev
    case Ask(a) => Asked(s, a)
    case Prune(at) => if s.row.Some? && s.row.value.expires < at then s.(row := None) else s
  }

  /** The lock orders the second clock readings; the first is at most `lag`
      older than the second. */
  predicate Allowed(s: Address, ev: Event, lag: real) {
    ev.Ask? ==> s.clock <= ev.attempt.now && ev.attempt.asked <= ev.attempt.now <= ev.attempt.asked + lag
  }

  function After(start: real, evs: seq<Event>): Address {
    if evs == [] then Address(None, start, [], [], None, start)
    else Next(After(start, evs[..|evs| - 1]), evs[|evs| - 1])
  }

  predicate Run(start: real, evs: seq<Event>, lag: real) {
    evs == [] ||
    (Run(start, evs[..|evs| - 1], lag) && Allowed(After(start, evs[..|evs| - 1]), evs[|evs| - 1], lag))
  }

  /** Successive turns of a window are at least the charged delay apart. */
  predicate Spaced(turns: seq<real>, numbers: seq<nat>) {
    && |turns| == |numbers|
    && (forall i | 0 <= i < |numbers| :: numbers[i] >= i + 1 && DelayFor(numbers[i]).Some?)
    && (forall i | 0 < i < |turns| :: turns[i] - turns[i - 1] >= DelayFor(numbers[i]).value)
  }

  predicate Inv(s: Address, lag: real) {
    && Spaced(s.turns, s.numbers)
    && (s.row.Some? ==>
          && s.row.value.expires == s.since + WINDOW
          && |s.turns| <= s.row.value.attempts
          && (s.turns == [] <==> s.row.value.notBefore.None?)
          && (s.turns != [] ==> s.row.value.notBefore == Some(s.turns[|s.turns| - 1]))
          && s.since <= s.clock)
    && (s.turns != [] ==>
          && s.since <= s.turns[0]
          && s.turns[|s.turns| - 1] < s.since + WINDOW + lag + MAX_QUEUE
          && s.latest.Some? && s.latest.value <= s.clock
          && s.turns[|s.turns| - 1] <= s.latest.value + MAX_QUEUE)
  }

  lemma AskKeepsInv(s: Address, a: Attempt, lag: real)
    requires lag >= 0.0 && Inv(s, lag) && Allowed(s, Ask(a), lag) && !Fresh(s.row, a.asked)
    ensures Inv(Asked(s, a), lag)
  {
    Delays(Charge(s.row, a.asked).attempts);
  }

  lemma OpeningKeepsInv(s: Address, a: Attempt, lag: real)
    requires lag >= 0.0 && Inv(s, lag) && Allowed(s, Ask(a), lag) && Fresh(s.row, a.asked)
    ensures Inv(Asked(s, a), lag)
  {
    Delays(1);
  }

  lemma NextKeepsInv(s: Address, ev: Event, lag: real)
    requires lag >= 0.0 && Inv(s, lag) && Allowed(s, ev, lag)
    ensures Inv(Next(s, ev), lag)
  {
    if ev.Ask? {
      if Fresh(s.row, ev.attempt.asked) {
        OpeningKeepsInv(s, ev.attempt, lag);
      } else {
        AskKeepsInv(s, ev.attempt, lag);
      }
    }
  }

  lemma {:induction false} RunKeepsInv(start: real, evs: seq<Event>, lag: real)
    requires lag >= 0.0 && Run(start, evs, lag)
    ensures Inv(After(start, evs), lag)
  {
    if evs != [] {
      RunKeepsInv(start, evs[..|evs| - 1], lag);
      NextKeepsInv(After(start, evs[..|evs| - 1]), evs[|evs| - 1], lag);
    }
  }

  /** The first nine admitted turns cost at least 7.5 s of delay, every further
      one eight more. */
  lemma {:induction false} TurnsSpread(turns: seq<real>, numbers: seq<nat>, n: nat)
    requires Spaced(turns, numbers) && 9 <= n <= |turns|
    ensures turns[n - 1] >= turns[0] + 7.5 + 8.0 * (n - 9) as real
  {
    if n > 9 {
      TurnsSpread(turns, numbers, n - 1);
      Delays(numbers[n - 1]);
    } else {
      Slower(numbers[5], 6);
      Slower(numbers[6], 7);
      Slower(numbers[7], 8);
      Slower(numbers[8], 9);
      Delays(9);
      FirstNine(turns, numbers);
    }
  }

  lemma Slower(n: nat, m: nat)
    requires 6 <= m <= n && m <= 9 && DelayFor(n).Some?
    ensures DelayFor(m).Some? && DelayFor(n).value >= DelayFor(m).value
  {
    Delays(n);
  }

  lemma OneTurn(turns: seq<real>, numbers: seq<nat>, i: nat)
    requires Spaced(turns, numbers) && 0 < i < |turns|
    ensures turns[i] - turns[i - 1] >= DelayFor(numbers[i]).value >= 0.0
  {
    Delays(numbers[i]);
  }

  lemma FirstNine(turns: seq<real>, numbers: seq<nat>)
    requires Spaced(turns, numbers) && |turns| >= 9
    ensures turns[8] - turns[0] >=
      DelayFor(numbers[5]).value + DelayFor(numbers[6]).value + DelayFor(numbers[7]).value + DelayFor(numbers[8]).value
  {
    OneTurn(turns, numbers, 1);
    OneTurn(turns, numbers, 2);
    OneTurn(turns, numbers, 3);
    OneTurn(turns, numbers, 4);
    OneTurn(turns, numbers, 5);
    OneTurn(turns, numbers, 6);
    OneTurn(turns, numbers, 7);
    OneTurn(turns, numbers, 8);
  }

  /** However many ask, one address is admitted at most 86 times in a window:
      (600 + 30 - 7.5) / 8 turns after the ninth, and one more for every eight
      seconds the row lock can delay an attempt. */
  lemma AtMost86(start: real, evs: seq<Event>, lag: real)
    requires lag >= 0.0 && Run(start, evs, lag)
    ensures |After(start, evs).turns| >= 9 ==>
      8.0 * (|After(start, evs).turns| - 9) as real < WINDOW + MAX_QUEUE - 7.5 + lag
    ensures lag == 0.0 ==> |After(start, evs).turns| <= 86
  {
    RunKeepsInv(start, evs, lag);
    var s := After(start, evs);
    if |s.turns| >= 9 {
      TurnsSpread(s.turns, s.numbers, |s.turns|);
    }
  }

  /** An admitted attempt waits for its delay at least and thirty seconds at
      most, and never before the turn handed out before it. */
  lemma AdmittedInTurn(start: real, evs: seq<Event>, lag: real, a: Attempt)
    requires lag >= 0.0 && Run(start, evs, lag) && Allowed(After(start, evs), Ask(a), lag)
    requires Answered(Charge(After(start, evs).row, a.asked), a.now).Admitted?
    ensures var s, turn := After(start, evs), Answered(Charge(After(start, evs).row, a.asked), a.now).turn;
      && 0.0 <= turn - a.now <= MAX_QUEUE
      && Next(s, Ask(a)).turns == (if Fresh(s.row, a.asked) then [turn] else s.turns + [turn])
      && (!Fresh(s.row, a.asked) && s.turns != [] ==>
            turn >= s.turns[|s.turns| - 1] + DelayFor(s.row.value.attempts + 1).value)
  {
    RunKeepsInv(start, evs, lag);
    Delays(Charge(After(start, evs).row, a.asked).attempts);
  }

  /** The attempts charged to the present window: refused ones count, failed
      ones were rolled back. */
  function Charged(start: real, evs: seq<Event>): nat {
    if evs == [] then 0
    else
      var s, ev := After(start, evs[..|evs| - 1]), evs[|evs| - 1];
      if ev.Prune? then Charged(start, evs[..|evs| - 1])
      else if Fresh(s.row, ev.attempt.asked) then 1
      else if Answered(Charge(s.row, ev.attempt.asked), ev.attempt.now).Failed? then Charged(start, evs[..|evs| - 1])
      else Charged(start, evs[..|evs| - 1]) + 1
  }

  lemma {:induction false} AttemptsAreCharged(start: real, evs: seq<Event>)
    ensures After(start, evs).row.Some? ==> After(start, evs).row.value.attempts == Charged(start, evs)
  {
    if evs != [] {
      var before, ev := evs[..|evs| - 1], evs[|evs| - 1];
      AttemptsAreCharged(start, before);
      if ev.Ask? {
        Delays(1);
      }
    }
  }

  /** Which window an attempt falls into, its number in it and the latest turn
      handed out there. */
  predicate Opens(s: Address, asked: real) {
    s.row.None? || asked >= s.since + 600.0
  }

  function Earliest(s: Address, a: Attempt): real {
    if !Opens(s, a.asked) && s.turns != [] && s.turns[|s.turns| - 1] > a.now then s.turns[|s.turns| - 1] else a.now
  }

  function Number(start: real, evs: seq<Event>, a: Attempt): nat {
    if Opens(After(start, evs), a.asked) then 1 else Charged(start, evs) + 1
  }

  /** Over every run an attempt fails exactly when its delay cannot be computed,
      and otherwise gets the latest turn of its window, or the present instant if
      that is later, plus its own delay: exactly when that is no more than thirty
      seconds away. */
  lemma AnsweredExactly(start: real, evs: seq<Event>, lag: real, a: Attempt)
    requires lag >= 0.0 && Run(start, evs, lag) && Allowed(After(start, evs), Ask(a), lag)
    ensures Answered(Charge(After(start, evs).row, a.asked), a.now)
         == var delay := DelayFor(Number(start, evs, a));
            if delay.None? then Failed
            else if Earliest(After(start, evs), a) + delay.value > a.now + 30.0 then Busy
            else Admitted(Earliest(After(start, evs), a) + delay.value)
  {
    RunKeepsInv(start, evs, lag);
    AttemptsAreCharged(start, evs);
  }

  /** Pruning is invisible: whatever it removes, every attempt asked no earlier
      gets the same answer and leaves the same row. */
  lemma PruningChangesNothing(s: Address, at: real, a: Attempt)
    requires at <= a.asked
    ensures var t := Next(s, Prune(at));
      && Answered(Charge(t.row, a.asked), a.now) == Answered(Charge(s.row, a.asked), a.now)
      && Reserve(t.row, a.asked, a.now) == Reserve(s.row, a.asked, a.now)
  {
    Delays(1);
  }

  /** Neither a refusal nor a failure moves the queue. */
  lemma RefusalsLeaveTheQueue(start: real, evs: seq<Event>, a: Attempt)
    requires !Fresh(After(start, evs).row, a.asked)
    requires !Answered(Charge(After(start, evs).row, a.asked), a.now).Admitted?
    ensures var s, t := After(start, evs), Next(After(start, evs), Ask(a));
      && t.turns == s.turns && t.since == s.since && t.row.Some?
      && t.row.value.notBefore == s.row.value.notBefore && t.row.value.expires == s.row.value.expires
      && t.row.value.attempts == Charged(start, evs + [Ask(a)])
  {
    AttemptsAreCharged(start, evs + [Ask(a)]);
    assert (evs + [Ask(a)])[..|evs|] == evs;
  }

  /** Eight seconds after the latest admission there is always room again: such
      an attempt is admitted exactly when its window has charged fewer than
      1029 attempts.  From there on the delay overflows and it fails. */
  lemma RoomAfterEightSeconds(start: real, evs: seq<Event>, lag: real, a: Attempt)
    requires lag >= 0.0 && Run(start, evs, lag) && Allowed(After(start, evs), Ask(a), lag)
    requires After(start, evs).latest.Some? ==> a.now >= After(start, evs).latest.value + 8.0
    ensures var row := After(start, evs).row;
      Answered(Charge(row, a.asked), a.now).Admitted?
      <==> Fresh(row, a.asked) || row.value.attempts < 1029
    ensures !Answered(Charge(After(start, evs).row, a.asked), a.now).Busy?
  {
    RunKeepsInv(start, evs, lag);
    Delays(Charge(After(start, evs).row, a.asked).attempts);
  }

  /** Failing attempts are not counted, so no later attempt of the window gets
      past the overflow either. */
  lemma OverflowLasts(row: Row, asks: seq<Attempt>)
    requires row.attempts == 1029
    requires forall a | a in asks :: a.asked < row.expires
    ensures forall a | a in asks ::
      Answered(Charge(Some(row), a.asked), a.now) == Failed && Reserve(Some(row), a.asked, a.now) == Some(row)
  {
    Delays(1030);
  }

  // Such a window is reached: everybody behind one address asks at once.

  function AllAtOnce(n: nat): seq<Event> {
    seq(n, i => Ask(Attempt(0.0, 0.0)))
  }

  predicate ChargedAtOnce(s: Address, n: nat) {
    && s.clock == 0.0 && s.row.Some? && s.row.value.attempts == n && s.row.value.expires == WINDOW
    && s.latest == Some(0.0)
  }

  lemma OneMoreCharge(s: Address, n: nat)
    requires ChargedAtOnce(s, n) && n < 1029
    ensures ChargedAtOnce(Asked(s, Attempt(0.0, 0.0)), n + 1)
  {
    Delays(n + 1);
  }

  lemma {:induction false} EachIsCharged(n: nat)
    requires 1 <= n <= 1029
    ensures Run(0.0, AllAtOnce(n), 0.0) && ChargedAtOnce(After(0.0, AllAtOnce(n)), n)
  {
    assert AllAtOnce(n)[..n - 1] == AllAtOnce(n - 1);
    if n > 1 {
      EachIsCharged(n - 1);
      OneMoreCharge(After(0.0, AllAtOnce(n - 1)), n - 1);
    } else {
      assert AllAtOnce(0) == [];
    }
  }

  /** After 1029 attempts at one instant, an attempt eight seconds and more after
      the latest admission, inside the window, is not admitted but fails. */
  lemma ABystanderFails(at: real)
    requires MAX_DELAY <= at < WINDOW
    ensures Run(0.0, AllAtOnce(1029), 0.0)
    ensures var s := After(0.0, AllAtOnce(1029));
      && Allowed(s, Ask(Attempt(at, at)), 0.0)
      && s.latest == Some(0.0) && at >= s.latest.value + 8.0
      && Answered(Charge(s.row, at), at) == Failed
  {
    EachIsCharged(1029);
    RoomAfterEightSeconds(0.0, AllAtOnce(1029), 0.0, Attempt(at, at));
  }

  // ----- an identifier's window -----

  /** How many of these attempts against one identifier are answered 429. */
  function Spent(row: Option<Row>, asked: seq<real>): nat
    decreases |asked|
  {
    if asked == [] then 0
    else (if Charge(row, asked[0]).attempts > IDENTIFIER_LIMIT then 1 else 0)
         + Spent(Some(Charge(row, asked[0])), asked[1..])
  }

  /** Within one window exactly the first ten attempts get past the ceiling. */
  lemma {:induction false} TenPerWindow(row: Row, asked: seq<real>)
    requires forall t | t in asked :: t < row.expires
    ensures row.attempts <= 10 ==>
      |asked| - Spent(Some(row), asked) == if |asked| <= 10 - row.attempts then |asked| else 10 - row.attempts
    ensures row.attempts >= 10 ==> Spent(Some(row), asked) == |asked|
    decreases |asked|
  {
    if asked != [] {
      assert asked[0] in asked && forall t | t in asked[1..] :: t in asked;
      TenPerWindow(Charge(Some(row), asked[0]), asked[1..]);
    }
  }

  // ----- the stored rows -----

  datatype Scope = Identifier(subject: string) | Peer(address: string)

  datatype Outcome = Held(wait: real) | TooMany | TryLater | ServerError

  function Lookup(rows: map<Scope, Row>, key: Scope): Option<Row> {
    if key in rows then Some(rows[key]) else None
  }

  class Store {
    var rows: map<Scope, Row>

    constructor ()
      ensures rows == map[]
    {
      rows := map[];
    }

    method ChargeRow(key: Scope, asked: real) returns (row: Row)
      modifies this
      ensures row == Charge(Lookup(old(rows), key), asked)
      ensures rows == old(rows)[key := row]
    {
      var expires := asked + WINDOW;
      if key in rows && asked < rows[key].expires {
        row := rows[key].(attempts := rows[key].attempts + 1);
      } else {
        row := Row(1, expires, None);
      }
      rows := rows[key := row];
    }

    /** The caller rolls back when the answer is `Failed`. */
    method ReserveTurn(key: Scope, asked: real, now: real) returns (answer: Answer)
      modifies this
      ensures answer == Answered(Charge(Lookup(old(rows), key), asked), now)
      ensures !answer.Failed? ==>
        rows == old(rows)[key := Reserve(Lookup(old(rows), key), asked, now).value]
      ensures rows.Keys == old(rows).Keys + {key}
    {
      var row := ChargeRow(key, asked);
      var delay := DelayFor(row.attempts);
      if delay.None? {
        return Failed;
      }
      var turn := (if row.notBefore.Some? && row.notBefore.value > now then row.notBefore.value else now)
                  + delay.value;
      if turn - now > MAX_QUEUE {
        return Busy;
      }
      rows := rows[key := row.(notBefore := Some(turn))];
      return Admitted(turn);
    }

    /** One sign-in attempt: charge the identifier, then take the address's
        turn unless the identifier is spent, in one transaction. */
    method ChargeLogin(subject: string, peer: Option<string>, first: real, asked: real, now: real)
      returns (outcome: Outcome)
      modifies this
      ensures var before, id := old(rows), Identifier(subject);
        var charged := Charge(Lookup(before, id), first);
        if charged.attempts > IDENTIFIER_LIMIT then
          outcome == TooMany && rows == before[id := charged]
        else if peer.None? then
          outcome == Held(DelayFor(charged.attempts).value) && rows == before[id := charged]
        else
          var key := Peer(peer.value);
          match Answered(Charge(Lookup(before, key), asked), now)
          case Failed => outcome == ServerError && rows == before
          case Busy =>
            outcome == TryLater
            && rows == before[id := charged][key := Charge(Lookup(before, key), asked)]
          case Admitted(turn) =>
            && outcome.Held? && outcome.wait >= turn - now && outcome.wait >= DelayFor(charged.attempts).value
            && (outcome.wait == turn - now || outcome.wait == DelayFor(charged.attempts).value)
            && rows == before[id := charged][key := Charge(Lookup(before, key), asked).(notBefore := Some(turn))]
    {
      var before := rows;
      var row := ChargeRow(Identifier(subject), first);
      Delays(row.attempts);
      if row.attempts > IDENTIFIER_LIMIT {
        return TooMany;
      }
      var queued := 0.0;
      if peer.Some? {
        var answer := ReserveTurn(Peer(peer.value), asked, now);
        if answer.Failed? {
          rows := before;
          return ServerError;
        }
        if answer.Busy? {
          return TryLater;
        }
        queued := answer.turn - now;
      }
      var delay := DelayFor(row.attempts).value;
      return Held(if delay > queued then delay else queued);
    }
  }
}

/** The second-factor challenge of one account: starting another challenge
    consumes the live one and carries its attempts over, so the budget of ten
    belongs to the account.

    A transaction has the instant its database clock shows (`seen`, `at`, its
    start) and commits later; `minted` is the process clock once the account
    key is held. */
module Challenges {

  const TTL: real := 600.0
  const MAX_ATTEMPTS: nat := 10

  /** `chain` counts the fresh budgets: a carried token stays in its chain. */
  datatype Token = Token(minted: real, expires: real, attempts: nat, unspent: bool, chain: nat)

  datatype Guess = Guess(at: real, chain: nat)

  /** `starts[c]` is when the budget of chain c was first handed out, `seen`
      the clock of the latest begin; both, and `guesses`, are history. */
  datatype Account = Account(tokens: seq<Token>, guesses: seq<Guess>, starts: seq<real>, seen: real)

  datatype Event =
    | Begin(seen: real, minted: real)
    | Answer(token: nat, at: real)
    | Win(token: nat)

  predicate Live(t: Token, at: real) {
    t.unspent && t.expires > at
  }

  function Carried(tokens: seq<Token>, seen: real): nat {
    if tokens == [] then 0
    else
      Carried(tokens[..|tokens| - 1], seen)
      + if Live(tokens[|tokens| - 1], seen) then tokens[|tokens| - 1].attempts else 0
  }

  function Consumed(t: Token, seen: real): Token {
    if Live(t, seen) then t.(unspent := false) else t
  }

  function ConsumedAll(tokens: seq<Token>, seen: real): seq<Token> {
    seq(|tokens|, i requires 0 <= i < |tokens| => Consumed(tokens[i], seen))
  }

  /** Whether a begin carries the latest token or opens a fresh budget. */
  predicate Continues(s: Account, seen: real) {
    s.tokens != [] && Live(s.tokens[|s.tokens| - 1], seen)
  }

  function BeginChallenge(s: Account, seen: real, minted: real): Account {
    var chain := if Continues(s, seen) then s.tokens[|s.tokens| - 1].chain else |s.starts|;
    var starts := if Continues(s, seen) then s.starts else s.starts + [minted];
    var token := Token(minted, minted + TTL, Carried(s.tokens, seen), true, chain);
    Account(ConsumedAll(s.tokens, seen) + [token], s.guesses, starts, seen)
  }

  /** The guess is counted, and only then looked at. */
  predicate Counts(s: Account, token: nat, at: real) {
    token < |s.tokens| && Live(s.tokens[token], at) && s.tokens[token].attempts < MAX_ATTEMPTS
  }

  function CountGuess(s: Account, token: nat, at: real): Account {
    if Counts(s, token, at) then
      var t := s.tokens[token];
      s.(tokens := s.tokens[token := t.(attempts := t.attempts + 1)],
         guesses := s.guesses + [Guess(at, t.chain)])
    else s
  }

  function SpendToken(s: Account, token: nat): Account {
    if token < |s.tokens| then s.(tokens := s.tokens[token := s.tokens[token].(unspent := false)]) else s
  }

  function Next(s: Account, ev: Event): Account {
    match ev
    case Begin(seen, minted) => BeginChallenge(s, seen, minted)
    case Answer(token, at) => CountGuess(s, token, at)
    case Win(token) => SpendToken(s, token)
  }

  /** Begins are ordered by the account key; a token is presented only after
      it was handed out. */
  predicate Allowed(s: Account, ev: Event) {
    match ev
    case Begin(seen, minted) =>
      seen <= minted && (s.tokens != [] ==> s.tokens[|s.tokens| - 1].minted <= minted)
    case Answer(token, at) => token < |s.tokens| ==> s.tokens[token].minted <= at
    case Win(token) => token < |s.tokens| ==> s.tokens[token].unspent
  }

  function Init(): Account {
    Account([], [], [], 0.0)
  }

  function After(evs: seq<Event>): Account {
    if evs == [] then Init() else Next(After(evs[..|evs| - 1]), evs[|evs| - 1])
  }

  predicate Run(evs: seq<Event>) {
    evs == [] || (Run(evs[..|evs| - 1]) && Allowed(After(evs[..|evs| - 1]), evs[|evs| - 1]))
  }

  function InChain(guesses: seq<Guess>, chain: nat): nat {
    if guesses == [] then 0
    else InChain(guesses[..|guesses| - 1], chain) + if guesses[|guesses| - 1].chain == chain then 1 else 0
  }

  function Between(guesses: seq<Guess>, from: real, to: real): nat {
    if guesses == [] then 0
    else
      Between(guesses[..|guesses| - 1], from, to)
      + if from <= guesses[|guesses| - 1].at <= to then 1 else 0
  }

  // ----- one budget, one live token -----

  predicate TokenOk(s: Account, i: nat)
    requires i < |s.tokens|
  {
    var t := s.tokens[i];
    && t.expires == t.minted + TTL && t.chain < |s.starts| && s.starts[t.chain] <= t.minted
    && (i + 1 < |s.tokens| ==> t.minted <= s.tokens[i + 1].minted && t.chain <= s.tokens[i + 1].chain)
    && (t.unspent && i + 1 < |s.tokens| ==> t.expires <= s.seen && t.chain < s.tokens[i + 1].chain)
    && (t.unspent ==> InChain(s.guesses, t.chain) <= t.attempts)
  }

  ghost predicate BudgetInv(s: Account) {
    && (forall i | 0 <= i < |s.tokens| :: TokenOk(s, i))
    && (forall c: nat :: InChain(s.guesses, c) <= MAX_ATTEMPTS)
    && (if s.tokens == [] then s.starts == [] else s.tokens[|s.tokens| - 1].chain + 1 == |s.starts|)
    && (forall g | g in s.guesses :: g.chain < |s.starts|)
  }

  lemma {:induction false} ChainsGrow(s: Account, i: nat, j: nat)
    requires BudgetInv(s) && i <= j < |s.tokens|
    ensures s.tokens[i].chain <= s.tokens[j].chain && s.tokens[i].minted <= s.tokens[j].minted
    decreases j
  {
    if i < j {
      ChainsGrow(s, i, j - 1);
      assert TokenOk(s, j - 1);
    }
  }

  lemma {:induction false} NoneInLaterChain(guesses: seq<Guess>, c: nat)
    requires forall g | g in guesses :: g.chain < c
    ensures InChain(guesses, c) == 0
  {
    if guesses != [] {
      NoneInLaterChain(guesses[..|guesses| - 1], c);
      assert guesses[|guesses| - 1] in guesses;
    }
  }

  lemma OneMoreGuess(guesses: seq<Guess>, g: Guess, c: nat)
    ensures InChain(guesses + [g], c) == InChain(guesses, c) + if g.chain == c then 1 else 0
  {
    assert (guesses + [g])[..|guesses|] == guesses;
  }

  lemma CarriesTheLatest(tokens: seq<Token>, seen: real)
    requires tokens != [] && Live(tokens[|tokens| - 1], seen)
    ensures Carried(tokens, seen) >= tokens[|tokens| - 1].attempts
  {
  }

  lemma BeginKeepsToken(s: Account, seen: real, minted: real, i: nat)
    requires BudgetInv(s) && Allowed(s, Begin(seen, minted)) && i <= |s.tokens|
    ensures TokenOk(BeginChallenge(s, seen, minted), i)
  {
    if i < |s.tokens| {
      assert TokenOk(s, i);
    } else {
      NoneInLaterChain(s.guesses, |s.starts|);
      if Continues(s, seen) {
        CarriesTheLatest(s.tokens, seen);
        assert TokenOk(s, |s.tokens| - 1);
      }
    }
  }

  lemma BeginKeepsBudget(s: Account, seen: real, minted: real)
    requires BudgetInv(s) && Allowed(s, Begin(seen, minted))
    ensures BudgetInv(BeginChallenge(s, seen, minted))
  {
    var next := BeginChallenge(s, seen, minted);
    forall i: nat | i < |next.tokens|
      ensures TokenOk(next, i)
    {
      BeginKeepsToken(s, seen, minted, i);
    }
  }

  lemma AnswerKeepsBudget(s: Account, token: nat, at: real)
    requires BudgetInv(s) && Counts(s, token, at)
    ensures BudgetInv(CountGuess(s, token, at))
  {
    var next, g := CountGuess(s, token, at), Guess(at, s.tokens[token].chain);
    assert TokenOk(s, token);
    forall c: nat
      ensures InChain(next.guesses, c) <= MAX_ATTEMPTS
    {
      OneMoreGuess(s.guesses, g, c);
    }
    forall i: nat | i < |next.tokens|
      ensures TokenOk(next, i)
    {
      assert TokenOk(s, i);
      OneMoreGuess(s.guesses, g, s.tokens[i].chain);
      if i < token {
        ChainsGrow(s, i + 1, token);
      } else if token < i {
        ChainsGrow(s, token + 1, i);
      }
    }
  }

  lemma WinKeepsBudget(s: Account, token: nat)
    requires BudgetInv(s)
    ensures BudgetInv(SpendToken(s, token))
  {
    forall i: nat | i < |s.tokens|
      ensures TokenOk(SpendToken(s, token), i)
    {
      assert TokenOk(s, i);
    }
  }

  lemma {:induction false} RunKeepsBudget(evs: seq<Event>)
    requires Run(evs)
    ensures BudgetInv(After(evs))
  {
    if evs != [] {
      var s := After(evs[..|evs| - 1]);
      RunKeepsBudget(evs[..|evs| - 1]);
      match evs[|evs| - 1]
      case Begin(seen, minted) => BeginKeepsBudget(s, seen, minted);
      case Answer(token, at) =>
        if Counts(s, token, at) {
          AnswerKeepsBudget(s, token, at);
        }
      case Win(token) => WinKeepsBudget(s, token);
    }
  }

  /** At no instant since the latest begin are two challenges live. */
  lemma AtMostOneLive(evs: seq<Event>, i: nat, j: nat, at: real)
    requires Run(evs) && at >= After(evs).seen
    requires i < |After(evs).tokens| && j < |After(evs).tokens|
    requires Live(After(evs).tokens[i], at) && Live(After(evs).tokens[j], at)
    ensures i == j == |After(evs).tokens| - 1
  {
    RunKeepsBudget(evs);
    assert TokenOk(After(evs), i) && TokenOk(After(evs), j);
  }

  // ----- exactly what was spent is carried -----

  lemma {:induction false} CarriesNothing(tokens: seq<Token>, seen: real)
    ensures Carried(tokens, seen) == 0 <==> forall t | t in tokens :: Live(t, seen) ==> t.attempts == 0
  {
    if tokens != [] {
      var n := |tokens| - 1;
      CarriesNothing(tokens[..n], seen);
      assert tokens == tokens[..n] + [tokens[n]];
    }
  }

  /** A begin carries what the latest token had spent if that is live, and nothing
      otherwise, if and only if no earlier token that was charged looks live to
      it. */
  lemma CarriesExactlyIff(s: Account, seen: real)
    requires s.tokens != []
    ensures Carried(s.tokens, seen) == (if Continues(s, seen) then s.tokens[|s.tokens| - 1].attempts else 0)
            <==> forall t | t in s.tokens[..|s.tokens| - 1] :: Live(t, seen) ==> t.attempts == 0
  {
    CarriesNothing(s.tokens[..|s.tokens| - 1], seen);
  }

  /** None does while the clocks that begins see do not run backwards. */
  lemma CarriesExactly(s: Account, seen: real)
    requires BudgetInv(s) && seen >= s.seen && s.tokens != []
    ensures Carried(s.tokens, seen) == if Continues(s, seen) then s.tokens[|s.tokens| - 1].attempts else 0
  {
    forall t | t in s.tokens[..|s.tokens| - 1]
      ensures !Live(t, seen)
    {
      var i :| 0 <= i < |s.tokens| - 1 && s.tokens[i] == t;
      assert TokenOk(s, i);
    }
    CarriesExactlyIff(s, seen);
  }

  lemma Onward(evs: seq<Event>, ev: Event) returns (more: seq<Event>)
    requires Run(evs) && Allowed(After(evs), ev)
    ensures Run(more) && After(more) == Next(After(evs), ev)
  {
    more := evs + [ev];
    assert more[..|evs|] == evs;
  }

  lemma OneGuess() returns (evs: seq<Event>)
    ensures Run(evs) && After(evs).tokens == [Token(0.0, 600.0, 1, true, 0)]
    ensures After(evs).guesses == [Guess(1.0, 0)] && After(evs).starts == [0.0]
  {
    evs := Onward([], Begin(0.0, 0.0));
    assert After(evs).tokens == [Token(0.0, 600.0, 0, true, 0)] && After(evs).starts == [0.0];
    evs := Onward(evs, Answer(0, 1.0));
  }

  lemma BeginAfterLapse(s: Account, t: Token)
    requires s.tokens == [t] && !Live(t, 601.0) && s.starts == [0.0]
    ensures var n := BeginChallenge(s, 601.0, 601.0);
      n.tokens == [t, Token(601.0, 1201.0, 0, true, 1)] && |n.starts| == 2 && n.guesses == s.guesses
  {
    CarriesNothing(s.tokens, 601.0);
    assert ConsumedAll(s.tokens, 601.0) == [t];
  }

  lemma LapsedAndWon() returns (evs: seq<Event>)
    ensures Run(evs) && |After(evs).starts| == 2
    ensures After(evs).tokens == [Token(0.0, 600.0, 1, true, 0), Token(601.0, 1201.0, 0, false, 1)]
    ensures After(evs).guesses == [Guess(1.0, 0)]
  {
    evs := OneGuess();
    BeginAfterLapse(After(evs), Token(0.0, 600.0, 1, true, 0));
    evs := Onward(evs, Begin(601.0, 601.0));
    evs := Onward(evs, Win(1));
  }

  lemma CarriedOfTwo(a: Token, b: Token, seen: real)
    ensures Carried([a, b], seen) == (if Live(a, seen) then a.attempts else 0) + if Live(b, seen) then b.attempts else 0
  {
    assert [a][..0] == [] && Carried([a], seen) == if Live(a, seen) then a.attempts else 0;
    assert [a, b][..1] == [a];
  }

  /** Otherwise one can: a begin that waited two seconds and a half for the
      account, while another begin and a success went by, charges its fresh
      budget for a guess at the lapsed token. */
  lemma AStaleClockOvercharges() returns (evs: seq<Event>)
    ensures Run(evs) && |After(evs).tokens| == 3
    ensures After(evs).tokens[2].attempts == 1 && InChain(After(evs).guesses, After(evs).tokens[2].chain) == 0
  {
    evs := LapsedAndWon();
    var s := After(evs);
    CarriedOfTwo(s.tokens[0], s.tokens[1], 599.5);
    assert s.tokens == [s.tokens[0], s.tokens[1]];
    assert !Continues(s, 599.5) && Carried(s.tokens, 599.5) == 1;
    NoneInLaterChain(s.guesses, 2);
    evs := Onward(evs, Begin(599.5, 602.0));
    assert After(evs).tokens[2] == Token(602.0, 602.0 + TTL, 1, true, 2);
  }

  predicate Monotone(evs: seq<Event>) {
    evs == [] || (Monotone(evs[..|evs| - 1]) &&
                  (evs[|evs| - 1].Begin? ==> evs[|evs| - 1].seen >= After(evs[..|evs| - 1]).seen))
  }

  /** The latest token has been charged every guess of its chain and no other. */
  ghost predicate ExactInv(s: Account) {
    s.tokens != [] ==>
      var t := s.tokens[|s.tokens| - 1];
      t.attempts == InChain(s.guesses, t.chain)
  }

  lemma NextKeepsExact(s: Account, ev: Event)
    requires BudgetInv(s) && ExactInv(s) && Allowed(s, ev) && (ev.Begin? ==> ev.seen >= s.seen)
    requires ev.Answer? && Counts(s, ev.token, ev.at) ==> ev.token == |s.tokens| - 1
    ensures ExactInv(Next(s, ev))
  {
    match ev
    case Begin(seen, minted) =>
      if s.tokens != [] {
        CarriesExactly(s, seen);
      }
      NoneInLaterChain(s.guesses, |s.starts|);
    case Answer(token, at) =>
      if Counts(s, token, at) {
        OneMoreGuess(s.guesses, Guess(at, s.tokens[token].chain), s.tokens[token].chain);
      }
    case Win(token) =>
  }

  /** Answers come no earlier, by the database clock, than the latest begin. */
  predicate Timely(evs: seq<Event>) {
    evs == [] || (Timely(evs[..|evs| - 1]) &&
                  (evs[|evs| - 1].Answer? ==> evs[|evs| - 1].at >= After(evs[..|evs| - 1]).seen))
  }

  lemma {:induction false} RunKeepsExact(evs: seq<Event>)
    requires Run(evs) && Monotone(evs) && Timely(evs)
    ensures ExactInv(After(evs))
  {
    if evs != [] {
      var before, ev := evs[..|evs| - 1], evs[|evs| - 1];
      RunKeepsExact(before);
      RunKeepsBudget(before);
      if ev.Answer? && Counts(After(before), ev.token, ev.at) {
        AtMostOneLive(before, ev.token, ev.token, ev.at);
      }
      NextKeepsExact(After(before), ev);
    }
  }

  /** With clocks that do not run backwards an answer is looked at exactly when
      its token is the latest one, unspent and not yet ten minutes old, and fewer
      than ten guesses were counted since the budget it belongs to was opened:
      no token is ever charged for a guess nobody made. */
  lemma LookedAtExactly(evs: seq<Event>, token: nat, at: real)
    requires Run(evs) && Monotone(evs) && Timely(evs) && at >= After(evs).seen
    ensures Counts(After(evs), token, at) <==>
      && token + 1 == |After(evs).tokens|
      && After(evs).tokens[token].unspent && at < After(evs).tokens[token].minted + TTL
      && InChain(After(evs).guesses, After(evs).tokens[token].chain) < MAX_ATTEMPTS
  {
    RunKeepsExact(evs);
    RunKeepsBudget(evs);
    if token < |After(evs).tokens| {
      assert TokenOk(After(evs), token);
    }
    if Counts(After(evs), token, at) {
      AtMostOneLive(evs, token, token, at);
    }
  }

  lemma SpentStaysSpent(s: Account, ev: Event, token: nat)
    requires token < |s.tokens| && !s.tokens[token].unspent
    ensures token < |Next(s, ev).tokens| && !Next(s, ev).tokens[token].unspent
    ensures !Counts(s, token, if ev.Answer? then ev.at else 0.0)
  {
  }

  /** A token that won once is spent for good: it wins no second time, and none
      of its answers is looked at again. */
  lemma {:induction false} WonOnce(evs: seq<Event>, i: nat, token: nat, at: real)
    requires Run(evs) && i < |evs| && evs[i] == Win(token) && token < |After(evs[..i]).tokens|
    ensures token < |After(evs).tokens|
    ensures !Counts(After(evs), token, at) && !Allowed(After(evs), Win(token))
    decreases |evs|
  {
    var before := evs[..|evs| - 1];
    if i < |before| {
      assert before[..i] == evs[..i];
      WonOnce(before, i, token, at);
      SpentStaysSpent(After(before), evs[|before|], token);
    }
  }

  // ----- what ten minutes can buy -----

  /** A token that is still unspent when a later one exists had lapsed before
      the budget after its own was opened. */
  predicate LapsedOk(s: Account, i: nat)
    requires i < |s.tokens|
  {
    var t := s.tokens[i];
    t.unspent && i + 1 < |s.tokens| ==>
      t.chain + 1 < |s.starts| && t.expires <= s.starts[t.chain + 1]
  }

  predicate Ascending(starts: seq<real>) {
    forall c | 0 < c < |starts| :: starts[c - 1] <= starts[c]
  }

  /** What every run keeps, successes included. */
  predicate LapseInv(s: Account) {
    (forall i | 0 <= i < |s.tokens| :: LapsedOk(s, i)) && Ascending(s.starts)
  }

  /** A guess counted since the last success: its chain ended by lapsing, a
      whole lifetime after it began and before the next one, or is still open. */
  predicate SinceOk(s: Account, g: Guess) {
    && g.chain < |s.starts| && s.starts[g.chain] <= g.at
    && if g.chain + 1 < |s.starts|
       then g.at < s.starts[g.chain + 1] && s.starts[g.chain] + TTL <= s.starts[g.chain + 1]
       else s.tokens != [] && s.tokens[|s.tokens| - 1].unspent && g.at < s.tokens[|s.tokens| - 1].expires
  }

  predicate SinceInv(s: Account, from: nat) {
    from <= |s.guesses| && forall i | from <= i < |s.guesses| :: SinceOk(s, s.guesses[i])
  }

  /** A fresh budget opens after the latest token was spent by a success, or
      else only after it has lapsed. */
  lemma FreshIsLate(s: Account, seen: real, minted: real)
    requires BudgetInv(s) && Allowed(s, Begin(seen, minted)) && !Continues(s, seen) && s.tokens != []
    ensures s.starts[|s.starts| - 1] <= minted
    ensures s.tokens[|s.tokens| - 1].unspent ==>
      s.tokens[|s.tokens| - 1].expires <= minted && s.starts[|s.starts| - 1] + TTL <= minted
  {
    assert TokenOk(s, |s.tokens| - 1);
  }

  lemma BeginKeepsLapsed(s: Account, seen: real, minted: real, i: nat)
    requires BudgetInv(s) && LapseInv(s) && Allowed(s, Begin(seen, minted))
    requires i < |BeginChallenge(s, seen, minted).tokens|
    ensures LapsedOk(BeginChallenge(s, seen, minted), i)
  {
    if i < |s.tokens| {
      assert LapsedOk(s, i) && TokenOk(s, i);
    }
  }

  lemma NextKeepsLapse(s: Account, ev: Event)
    requires BudgetInv(s) && LapseInv(s) && Allowed(s, ev)
    ensures LapseInv(Next(s, ev))
  {
    var next := Next(s, ev);
    forall i: nat | i < |next.tokens|
      ensures LapsedOk(next, i)
    {
      if ev.Begin? {
        BeginKeepsLapsed(s, ev.seen, ev.minted, i);
      } else {
        assert LapsedOk(s, i);
      }
    }
    if ev.Begin? && !Continues(s, ev.seen) && s.tokens != [] {
      FreshIsLate(s, ev.seen, ev.minted);
    }
  }

  lemma {:induction false} RunKeepsLapse(evs: seq<Event>)
    requires Run(evs)
    ensures LapseInv(After(evs))
  {
    if evs != [] {
      RunKeepsLapse(evs[..|evs| - 1]);
      RunKeepsBudget(evs[..|evs| - 1]);
      NextKeepsLapse(After(evs[..|evs| - 1]), evs[|evs| - 1]);
    }
  }

  lemma BeginKeepsGuess(s: Account, seen: real, minted: real, g: Guess)
    requires BudgetInv(s) && Allowed(s, Begin(seen, minted)) && SinceOk(s, g)
    ensures SinceOk(BeginChallenge(s, seen, minted), g)
  {
    if s.tokens != [] {
      assert TokenOk(s, |s.tokens| - 1);
    }
  }

  lemma BeginKeepsSince(s: Account, seen: real, minted: real, from: nat)
    requires BudgetInv(s) && SinceInv(s, from) && Allowed(s, Begin(seen, minted))
    ensures SinceInv(BeginChallenge(s, seen, minted), from)
  {
    var next := BeginChallenge(s, seen, minted);
    forall i: nat | from <= i < |next.guesses|
      ensures SinceOk(next, next.guesses[i])
    {
      BeginKeepsGuess(s, seen, minted, s.guesses[i]);
    }
  }

  lemma AnswerKeepsSince(s: Account, token: nat, at: real, from: nat)
    requires BudgetInv(s) && LapseInv(s) && SinceInv(s, from)
    requires Allowed(s, Answer(token, at)) && Counts(s, token, at)
    ensures SinceInv(CountGuess(s, token, at), from)
  {
    var next := CountGuess(s, token, at);
    assert TokenOk(s, token) && LapsedOk(s, token);
    forall i: nat | from <= i < |next.guesses|
      ensures SinceOk(next, next.guesses[i])
    {
      if i < |s.guesses| {
        assert SinceOk(s, s.guesses[i]);
      }
    }
  }

  predicate NoWin(evs: seq<Event>) {
    forall ev | ev in evs :: !ev.Win?
  }

  lemma {:induction false} PrefixRuns(evs: seq<Event>, n: nat)
    requires Run(evs) && n <= |evs|
    ensures Run(evs[..n]) && After(evs[..n]).guesses <= After(evs).guesses
  {
    if n == |evs| {
      assert evs[..n] == evs;
    } else {
      PrefixRuns(evs[..|evs| - 1], n);
      assert evs[..|evs| - 1][..n] == evs[..n];
    }
  }

  lemma NextKeepsSince(s: Account, ev: Event, from: nat)
    requires BudgetInv(s) && LapseInv(s) && SinceInv(s, from) && Allowed(s, ev) && !ev.Win?
    ensures SinceInv(Next(s, ev), from)
  {
    match ev
    case Begin(seen, minted) => BeginKeepsSince(s, seen, minted, from);
    case Answer(token, at) =>
      if Counts(s, token, at) {
        AnswerKeepsSince(s, token, at, from);
      }
  }

  /** `n` is where the successes end. */
  lemma {:induction false} RunKeepsSince(evs: seq<Event>, n: nat)
    requires Run(evs) && n <= |evs| && NoWin(evs[n..])
    ensures SinceInv(After(evs), |After(evs[..n]).guesses|)
    decreases |evs|
  {
    PrefixRuns(evs, n);
    if n == |evs| {
      assert evs[..n] == evs;
    } else {
      var before, ev := evs[..|evs| - 1], evs[|evs| - 1];
      assert before[..n] == evs[..n] && evs[n..] == before[n..] + [ev];
      RunKeepsSince(before, n);
      RunKeepsBudget(before);
      RunKeepsLapse(before);
      NextKeepsSince(After(before), ev, |After(evs[..n]).guesses|);
    }
  }

  lemma {:induction false} StartsGrow(starts: seq<real>, c: nat, d: nat)
    requires Ascending(starts) && c <= d < |starts|
    ensures starts[c] <= starts[d]
    decreases d
  {
    if c < d {
      StartsGrow(starts, c, d - 1);
    }
  }

  /** Between the guesses of two chains a third one, guessed on, takes a whole
      lifetime. */
  lemma TooFarApart(s: Account, g: Guess, mid: Guess, h: Guess)
    requires LapseInv(s) && SinceOk(s, g) && SinceOk(s, mid) && SinceOk(s, h)
    requires g.chain < mid.chain < h.chain
    ensures h.at > g.at + TTL
  {
    StartsGrow(s.starts, g.chain + 1, mid.chain);
    StartsGrow(s.starts, mid.chain + 1, h.chain);
  }

  predicate Within(g: Guess, from: real, to: real) { from <= g.at <= to }

  lemma {:induction false} TwoChainsCover(guesses: seq<Guess>, from: real, to: real, c: nat, d: nat)
    requires c != d
    requires forall g | g in guesses && Within(g, from, to) :: g.chain == c || g.chain == d
    ensures Between(guesses, from, to) <= InChain(guesses, c) + InChain(guesses, d)
  {
    if guesses != [] {
      var before := guesses[..|guesses| - 1];
      assert forall g | g in before :: g in guesses;
      assert guesses[|guesses| - 1] in guesses;
      TwoChainsCover(before, from, to, c, d);
    }
  }

  lemma {:induction false} LaterGuesses(guesses: seq<Guess>, n: nat, c: nat)
    requires n <= |guesses|
    ensures InChain(guesses[n..], c) <= InChain(guesses, c)
    decreases |guesses|
  {
    if n < |guesses| {
      var before := guesses[..|guesses| - 1];
      LaterGuesses(before, n, c);
      assert guesses[n..][..|guesses[n..]| - 1] == before[n..];
    }
  }

  /** Guesses of at most two chains fit into one lifetime. */
  lemma AtMostTwoChains(s: Account, guesses: seq<Guess>, from: real, to: real) returns (c: nat, d: nat)
    requires LapseInv(s) && to <= from + TTL && forall g | g in guesses :: SinceOk(s, g)
    ensures c != d && forall g | g in guesses && Within(g, from, to) :: g.chain == c || g.chain == d
  {
    c, d := 0, 1;
    if g :| g in guesses && Within(g, from, to) {
      c, d := g.chain, g.chain + 1;
      if h :| h in guesses && Within(h, from, to) && h.chain != g.chain {
        d := h.chain;
        forall x | x in guesses && Within(x, from, to)
          ensures x.chain == c || x.chain == d
        {
          NoThirdChain(s, g, h, x, from, to);
        }
      }
    }
  }

  lemma NoThirdChain(s: Account, g: Guess, h: Guess, x: Guess, from: real, to: real)
    requires LapseInv(s) && SinceOk(s, g) && SinceOk(s, h) && SinceOk(s, x) && to <= from + TTL
    requires Within(g, from, to) && Within(h, from, to) && Within(x, from, to) && g.chain != h.chain
    ensures x.chain == g.chain || x.chain == h.chain
  {
    var first, last := if g.chain < h.chain then g else h, if g.chain < h.chain then h else g;
    if x.chain < first.chain {
      TooFarApart(s, x, first, last);
    } else if last.chain < x.chain {
      TooFarApart(s, first, last, x);
    } else if first.chain < x.chain < last.chain {
      TooFarApart(s, first, x, last);
    }
  }

  /** The guesses counted from the n-th event on. */
  function CountedSince(evs: seq<Event>, n: nat): seq<Guess>
    requires Run(evs) && n <= |evs|
  {
    PrefixRuns(evs, n);
    After(evs).guesses[|After(evs[..n]).guesses|..]
  }

  /** However an account's challenges were started, answered and won before, from
      any point on any ten minutes without a success hold at most twenty counted
      guesses. */
  lemma TwentyGuesses(evs: seq<Event>, n: nat, from: real, to: real)
    requires Run(evs) && n <= |evs| && NoWin(evs[n..]) && to <= from + TTL
    ensures Between(CountedSince(evs, n), from, to) <= 2 * MAX_ATTEMPTS
  {
    PrefixRuns(evs, n);
    var s, earlier := After(evs), |After(evs[..n]).guesses|;
    RunKeepsBudget(evs);
    RunKeepsLapse(evs);
    RunKeepsSince(evs, n);
    var c, d := AtMostTwoChains(s, s.guesses[earlier..], from, to);
    TwoChainsCover(s.guesses[earlier..], from, to, c, d);
    LaterGuesses(s.guesses, earlier, c);
    LaterGuesses(s.guesses, earlier, d);
  }

  /** Twenty is reached: ten guesses just before a budget lapses and ten on the
      one that follows it. */
  lemma TwentyIsReached() returns (evs: seq<Event>)
    ensures Run(evs) && NoWin(evs) && Between(After(evs).guesses, 599.0, 600.0) == 20
  {
    evs := [Begin(0.0, 0.0)];
    assert evs[..0] == [];
    evs := TenAnswers(evs, 0, 599.0);
    var more := evs + [Begin(600.0, 600.0)];
    assert more[..|evs|] == evs;
    assert Carried(After(evs).tokens[..0], 600.0) == 0 && Carried(After(evs).tokens, 600.0) == 0;
    evs := TenAnswers(more, 1, 600.0);
  }

  lemma TenAnswers(evs: seq<Event>, token: nat, at: real) returns (more: seq<Event>)
    requires Run(evs) && NoWin(evs) && token < |After(evs).tokens|
    requires After(evs).tokens[token].attempts == 0 && Live(After(evs).tokens[token], at)
    requires After(evs).tokens[token].minted <= at && 599.0 <= at <= 600.0
    ensures Run(more) && NoWin(more)
    ensures |After(more).tokens| == |After(evs).tokens|
    ensures After(more).tokens == After(evs).tokens[token := After(evs).tokens[token].(attempts := 10)]
    ensures Between(After(more).guesses, 599.0, 600.0) == Between(After(evs).guesses, 599.0, 600.0) + 10
  {
    more := evs;
    var n := 0;
    while n < 10
      invariant 0 <= n <= 10 && Run(more) && NoWin(more)
      invariant After(more).tokens == After(evs).tokens[token := After(evs).tokens[token].(attempts := n)]
      invariant Between(After(more).guesses, 599.0, 600.0) == Between(After(evs).guesses, 599.0, 600.0) + n
    {
      var next := more + [Answer(token, at)];
      assert next[..|more|] == more;
      var s, g := After(more), Guess(at, After(more).tokens[token].chain);
      assert (s.guesses + [g])[..|s.guesses|] == s.guesses;
      more := next;
      n := n + 1;
    }
  }

  // ----- the rows -----

  datatype Row = Row(expires: real, attempts: nat, unspent: bool)

  function Stored(t: Token): Row { Row(t.expires, t.attempts, t.unspent) }

  predicate Stores(rows: seq<Row>, tokens: seq<Token>) {
    |rows| == |tokens| && forall i | 0 <= i < |rows| :: rows[i] == Stored(tokens[i])
  }

  class Tokens {
    var rows: seq<Row>

    constructor ()
      ensures rows == []
    {
      rows := [];
    }

    /** Consumes what is live, adds up what it had spent, and mints the next. */
    method Begin(seen: real, minted: real, ghost s: Account)
      requires Stores(rows, s.tokens)
      modifies this
      ensures Stores(rows, BeginChallenge(s, seen, minted).tokens)
    {
      var spent, i := 0, 0;
      while i < |rows|
        invariant 0 <= i <= |rows| == |s.tokens|
        invariant forall j | 0 <= j < |rows| ::
          rows[j] == Stored(if j < i then Consumed(s.tokens[j], seen) else s.tokens[j])
        invariant spent == Carried(s.tokens[..i], seen)
      {
        assert s.tokens[..i + 1][..i] == s.tokens[..i];
        if rows[i].unspent && rows[i].expires > seen {
          spent := spent + rows[i].attempts;
          rows := rows[i := rows[i].(unspent := false)];
        }
        i := i + 1;
      }
      assert s.tokens[..i] == s.tokens;
      rows := rows + [Row(minted + TTL, spent, true)];
    }

    /** Counts the attempt and says whether the code may be looked at. */
    method Answer(token: nat, at: real, ghost s: Account) returns (claimed: bool)
      requires Stores(rows, s.tokens)
      modifies this
      ensures Stores(rows, CountGuess(s, token, at).tokens)
      ensures claimed <==> Counts(s, token, at)
    {
      claimed := token < |rows| && rows[token].unspent && rows[token].expires > at
                 && rows[token].attempts < MAX_ATTEMPTS;
      if claimed {
        rows := rows[token := rows[token].(attempts := rows[token].attempts + 1)];
      }
    }
  }
}

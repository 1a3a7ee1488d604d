/** What a run left of one account's second factor, read off its events: which
    factor, which recovery codes and which sessions there are, and exactly which
    credentials can still be spent. */
module FactorStory {
  import opened Wrappers
  import opened Factors

  /** A request whose conditions no longer hold rolls back. */
  predicate TakesEffect(s: State, ev: Event) {
    match ev
    case Try(f) => Current(s) == Some(f) && s.factor.value.tries < MAX_ATTEMPTS
    case SignIn(f, proof) => Spendable(s, f, proof)
    case Mint(_, expected) => Current(s) == expected
    case Remove(session, f, proof) => session in s.sessions && Current(s) == Some(f) && Spendable(s, f, proof)
    case Confirm(session, replacing, _, _, _) =>
      && session in s.sessions
      && (replacing.None? ==> Current(s).None?)
      && (replacing.Some? ==> Current(s) == Some(replacing.value.factor)
                              && Spendable(s, replacing.value.factor, replacing.value.proof))
    case End(session) => session in s.sessions
    case Clear => Current(s).Some?
  }

  lemma OtherwiseNothingChanges(s: State, ev: Event)
    requires !TakesEffect(s, ev)
    ensures Next(s, ev) == s
  {
  }

  // ----- what there is -----

  /** The factor of the last confirmation, unless it was removed or cleared. */
  function Enrolled(evs: seq<Event>): Option<nat> {
    if evs == [] then None
    else
      var before, ev := evs[..|evs| - 1], evs[|evs| - 1];
      if !TakesEffect(After(before), ev) then Enrolled(before)
      else if ev.Confirm? then Some(ev.id)
      else if ev.Remove? || ev.Clear? then None
      else Enrolled(before)
  }

  /** The recovery codes issued with that factor. */
  function Issued(evs: seq<Event>): set<nat> {
    if evs == [] then {}
    else
      var before, ev := evs[..|evs| - 1], evs[|evs| - 1];
      if !TakesEffect(After(before), ev) then Issued(before)
      else if ev.Confirm? then ev.newCodes
      else if ev.Remove? || ev.Clear? then {}
      else Issued(before)
  }

  /** The sessions minted or carried over and not ended since. */
  function Alive(evs: seq<Event>): set<nat> {
    if evs == [] then {}
    else
      var before, ev := evs[..|evs| - 1], evs[|evs| - 1];
      if !TakesEffect(After(before), ev) then Alive(before)
      else match ev
        case Mint(session, _) => Alive(before) + {session}
        case End(session) => Alive(before) - {session}
        case Confirm(session, _, _, _, _) => {session}
        case Remove(session, _, _) => {session}
        case Clear => {}
        case Try(_) => Alive(before)
        case SignIn(_, _) => Alive(before)
  }

  /** The credentials accepted so far, in order; a confirmation is accepted with
      a step of the new factor. */
  function Accepted(evs: seq<Event>): seq<Spend> {
    if evs == [] then []
    else
      var before, ev := evs[..|evs| - 1], evs[|evs| - 1];
      if !TakesEffect(After(before), ev) then Accepted(before)
      else match ev
        case SignIn(f, proof) => Accepted(before) + [Spend(f, proof)]
        case Remove(_, f, proof) => Accepted(before) + [Spend(f, proof)]
        case Confirm(_, replacing, id, step, _) =>
          Accepted(before) + (if replacing.Some? then [replacing.value] else []) + [Spend(id, Step(step))]
        case _ => Accepted(before)
  }

  predicate Is(s: State, enrolled: Option<nat>, issued: set<nat>, alive: set<nat>, accepted: seq<Spend>) {
    && Current(s) == enrolled && s.codes.Keys == issued && s.sessions.Keys == alive && s.spends == accepted
  }

  /** Factor, codes, sessions and spent credentials are exactly what the
      transactions that took effect made of them; the others left no trace. */
  lemma {:induction false} AccountTellsTheRun(evs: seq<Event>)
    requires Run(evs)
    ensures Is(After(evs), Enrolled(evs), Issued(evs), Alive(evs), Accepted(evs))
  {
    if evs != [] {
      var before, ev := evs[..|evs| - 1], evs[|evs| - 1];
      AccountTellsTheRun(before);
      match ev
      case Try(_) =>
      case SignIn(_, _) =>
      case Mint(_, _) =>
      case Remove(_, _, _) =>
      case Confirm(_, _, _, _, _) =>
      case End(_) =>
      case Clear =>
    }
  }

  // ----- what can be spent -----

  predicate Presented(spends: seq<Spend>, c: nat) {
    exists x | x in spends :: x.proof == Code(c)
  }

  predicate CodesOk(s: State) {
    forall c | c in s.codes :: s.codes[c] <==> !Presented(s.spends, c)
  }

  predicate StepOk(s: State) {
    s.factor.Some? ==>
      (&& s.factor.value.lastStep.Some?
       && Spend(s.factor.value.id, Step(s.factor.value.lastStep.value)) in s.spends)
  }

  lemma OneMorePresented(spends: seq<Spend>, x: Spend, c: nat)
    ensures Presented(spends + [x], c) <==> Presented(spends, c) || x.proof == Code(c)
  {
    if Presented(spends, c) {
      var y :| y in spends && y.proof == Code(c);
      assert y in spends + [x];
    }
    assert x in spends + [x];
  }

  lemma SpendKeepsCodes(s: State, f: nat, proof: Proof)
    requires CodesOk(s) && StepOk(s) && Spendable(s, f, proof)
    ensures CodesOk(Spent(s, f, proof)) && StepOk(Spent(s, f, proof))
  {
    var t := Spent(s, f, proof);
    forall c | c in t.codes
      ensures t.codes[c] <==> !Presented(t.spends, c)
    {
      OneMorePresented(s.spends, Spend(f, proof), c);
    }
  }

  lemma FreshCodesAreUnspent(s: State, session: nat, id: nat, step: int, newCodes: set<nat>)
    requires Factors.Inv(s) && newCodes !! s.codeIds
    ensures CodesOk(Installed(s, session, id, step, newCodes)) && StepOk(Installed(s, session, id, step, newCodes))
  {
    var t := Installed(s, session, id, step, newCodes);
    forall c | c in t.codes
      ensures t.codes[c] <==> !Presented(t.spends, c)
    {
      OneMorePresented(s.spends, Spend(id, Step(step)), c);
      assert forall x | x in s.spends :: SpendOk(s, x);
    }
    assert Spend(id, Step(step)) in t.spends;
  }

  lemma NextKeepsCodes(s: State, ev: Event)
    requires Factors.Inv(s) && Allowed(s, ev) && CodesOk(s) && StepOk(s)
    ensures CodesOk(Next(s, ev)) && StepOk(Next(s, ev))
  {
    match ev
    case SignIn(f, proof) =>
      if Spendable(s, f, proof) {
        SpendKeepsCodes(s, f, proof);
      }
    case Remove(_, f, proof) =>
    case Confirm(session, replacing, id, step, newCodes) =>
      if TakesEffect(s, ev) {
        if replacing.None? {
          FreshCodesAreUnspent(s, session, id, step, newCodes);
        } else {
          SpendKeepsInv(s, replacing.value.factor, replacing.value.proof);
          FreshCodesAreUnspent(Spent(s, replacing.value.factor, replacing.value.proof), session, id, step, newCodes);
        }
      } else {
        OtherwiseNothingChanges(s, ev);
      }
    case _ =>
  }

  lemma {:induction false} RunKeepsCodes(evs: seq<Event>)
    requires Run(evs)
    ensures CodesOk(After(evs)) && StepOk(After(evs))
  {
    if evs != [] {
      RunKeepsInv(evs[..|evs| - 1]);
      RunKeepsCodes(evs[..|evs| - 1]);
      NextKeepsCodes(After(evs[..|evs| - 1]), evs[|evs| - 1]);
    }
  }

  /** Over every run a recovery code can be spent exactly when it was issued with
      the present factor and never accepted; and a time step exactly when it is
      presented for the present factor and above every step accepted for it. */
  lemma SpendableExactly(evs: seq<Event>, f: nat, proof: Proof)
    requires Run(evs)
    ensures Spendable(After(evs), f, proof) <==>
      match proof
      case Code(c) => c in Issued(evs) && !Presented(Accepted(evs), c)
      case Step(n) =>
        && Enrolled(evs) == Some(f)
        && forall x | x in Accepted(evs) :: x.factor == f && x.proof.Step? ==> x.proof.step < n
  {
    RunKeepsCodes(evs);
    RunKeepsInv(evs);
    AccountTellsTheRun(evs);
    var s := After(evs);
    if proof.Step? && Current(s) == Some(f) {
      assert forall x | x in s.spends :: SpendOk(s, x);
    }
  }

  /** So every code of a confirmation that took effect can be spent right after
      it, and the next time step of the new factor too. */
  lemma FreshCodesWork(evs: seq<Event>, c: nat)
    requires Run(evs) && evs != [] && evs[|evs| - 1].Confirm? && c in evs[|evs| - 1].newCodes
    requires TakesEffect(After(evs[..|evs| - 1]), evs[|evs| - 1])
    ensures Spendable(After(evs), evs[|evs| - 1].id, Code(c))
    ensures Spendable(After(evs), evs[|evs| - 1].id, Step(evs[|evs| - 1].step + 1))
  {
    var before, ev := evs[..|evs| - 1], evs[|evs| - 1];
    RunKeepsInv(before);
    RunKeepsCodes(evs);
    SpendableExactly(evs, ev.id, Code(c));
  }

  /** A try at replacing the present factor is counted, and only then looked at,
      exactly while fewer than ten were counted since it was last proved at a
      sign-in. */
  lemma TryCountedExactly(evs: seq<Event>, f: nat)
    requires Run(evs)
    ensures Next(After(evs), Try(f)) != After(evs) <==> Enrolled(evs) == Some(f) && Tries(evs, f) < 10
  {
    AccountTellsTheRun(evs);
    TenTriesBetweenSignIns(evs, f);
    if Current(After(evs)) == Some(f) {
      assert After(evs).factor.value.tries + 1 != After(evs).factor.value.tries;
    }
  }
}

/** The second factor of one account: credentials that are spent once, the
    replacement budget, and the gate every session was opened behind.

    An event is one transaction holding the account key, or one conditional
    update; a request whose conditions no longer hold rolls back. */
module Factors {
  import opened Wrappers

  const MAX_ATTEMPTS: nat := 10

  datatype Factor = Factor(id: nat, lastStep: Option<int>, tries: nat)

  datatype Proof = Code(id: nat) | Step(step: int)

  datatype Spend = Spend(factor: nat, proof: Proof)

  /** `codes` maps each recovery code row to whether it is unspent, `sessions`
      each live session to the factor it was opened behind. */
  datatype State = State(
    factor: Option<Factor>,
    codes: map<nat, bool>,
    sessions: map<nat, Option<nat>>,
    factorIds: set<nat>,
    codeIds: set<nat>,
    spends: seq<Spend>)

  datatype Event =
    | Try(factor: nat)
    | SignIn(factor: nat, proof: Proof)
    | Mint(session: nat, expected: Option<nat>)
    | Remove(session: nat, factor: nat, proof: Proof)
    | Confirm(session: nat, replacing: Option<Spend>, id: nat, step: int, newCodes: set<nat>)
    | End(session: nat)
    | Clear                             // the operator's command

  function Current(s: State): Option<nat> {
    if s.factor.Some? then Some(s.factor.value.id) else None
  }

  /** The conditional update of `_spend`. */
  predicate Spendable(s: State, factor: nat, proof: Proof) {
    match proof
    case Code(c) => c in s.codes && s.codes[c]
    case Step(n) =>
      && s.factor.Some? && s.factor.value.id == factor
      && (s.factor.value.lastStep.Some? ==> s.factor.value.lastStep.value < n)
  }

  function Spent(s: State, factor: nat, proof: Proof): State
    requires Spendable(s, factor, proof)
  {
    match proof
    case Code(c) => s.(codes := s.codes[c := false], spends := s.spends + [Spend(factor, proof)])
    case Step(n) =>
      s.(factor := Some(s.factor.value.(lastStep := Some(n))), spends := s.spends + [Spend(factor, proof)])
  }

  function Installed(s: State, session: nat, id: nat, step: int, newCodes: set<nat>): State {
    s.(factor := Some(Factor(id, Some(step), 0)),
       codes := map c | c in newCodes :: true,
       sessions := map[session := Some(id)],
       factorIds := s.factorIds + {id},
       codeIds := s.codeIds + newCodes,
       spends := s.spends + [Spend(id, Step(step))])
  }

  function Next(s: State, ev: Event): State {
    match ev
    case Try(f) =>
      if Current(s) == Some(f) && s.factor.value.tries < MAX_ATTEMPTS
      then s.(factor := Some(s.factor.value.(tries := s.factor.value.tries + 1)))
      else s
    case SignIn(f, proof) =>
      if Spendable(s, f, proof) then
        var t := Spent(s, f, proof);
        if Current(t) == Some(f) then t.(factor := Some(t.factor.value.(tries := 0))) else t
      else s
    case Mint(session, expected) =>
      if Current(s) == expected then s.(sessions := s.sessions[session := expected]) else s
    case Remove(session, f, proof) =>
      if Spendable(s, f, proof) && Current(s) == Some(f) && session in s.sessions
      then Spent(s, f, proof).(factor := None, codes := map[], sessions := map[session := None])
      else s
    case Confirm(session, replacing, id, step, newCodes) =>
      if session !in s.sessions then s
      else if replacing.None? then
        // The unique constraint refuses a second factor.
        if s.factor.None? then Installed(s, session, id, step, newCodes) else s
      else if Spendable(s, replacing.value.factor, replacing.value.proof)
              && Current(s) == Some(replacing.value.factor)
      then Installed(Spent(s, replacing.value.factor, replacing.value.proof), session, id, step, newCodes)
      else s
    case End(session) => s.(sessions := s.sessions - {session})
    case Clear => if s.factor.None? then s else s.(factor := None, codes := map[], sessions := map[])
  }

  /** Row ids are never used twice. */
  predicate Allowed(s: State, ev: Event) {
    ev.Confirm? ==> ev.id !in s.factorIds && ev.newCodes !! s.codeIds
  }

  function Init(): State {
    State(None, map[], map[], {}, {}, [])
  }

  function After(evs: seq<Event>): State {
    if evs == [] then Init() else Next(After(evs[..|evs| - 1]), evs[|evs| - 1])
  }

  predicate Run(evs: seq<Event>) {
    evs == [] || (Run(evs[..|evs| - 1]) && Allowed(After(evs[..|evs| - 1]), evs[|evs| - 1]))
  }

  // ----- a credential is spent once -----

  /** Two spends of one account never present the same recovery code, and two
      time steps of one factor only ever grow. */
  predicate Apart(earlier: Spend, later: Spend) {
    match later.proof
    case Code(_) => earlier.proof != later.proof
    case Step(n) => earlier.proof.Step? && earlier.factor == later.factor ==> earlier.proof.step < n
  }

  predicate SpendOk(s: State, x: Spend) {
    match x.proof
    case Code(c) => c in s.codeIds && (c in s.codes ==> !s.codes[c])
    case Step(n) =>
      && x.factor in s.factorIds
      && (Current(s) == Some(x.factor) ==> s.factor.value.lastStep.Some? && n <= s.factor.value.lastStep.value)
  }

  predicate Inv(s: State) {
    && (s.factor.Some? ==> s.factor.value.id in s.factorIds && s.factor.value.tries <= MAX_ATTEMPTS)
    && (forall c | c in s.codes :: c in s.codeIds)
    && (forall x | x in s.spends :: SpendOk(s, x))
    && (forall i, j | 0 <= i < j < |s.spends| :: Apart(s.spends[i], s.spends[j]))
    && (forall k | k in s.sessions :: s.sessions[k] == Current(s))
  }

  lemma SpendKeepsInv(s: State, factor: nat, proof: Proof)
    requires Inv(s) && Spendable(s, factor, proof)
    ensures Inv(Spent(s, factor, proof))
  {
    var t := Spent(s, factor, proof);
    forall x | x in t.spends
      ensures SpendOk(t, x)
    {
      assert x in s.spends ==> SpendOk(s, x);
    }
    forall x | x in s.spends
      ensures Apart(x, Spend(factor, proof))
    {
      assert SpendOk(s, x);
    }
  }

  lemma InstallKeepsInv(s: State, session: nat, id: nat, step: int, newCodes: set<nat>)
    requires Inv(s) && id !in s.factorIds && newCodes !! s.codeIds
    ensures Inv(Installed(s, session, id, step, newCodes))
  {
    var t := Installed(s, session, id, step, newCodes);
    forall x | x in t.spends
      ensures SpendOk(t, x)
    {
      assert x in s.spends ==> SpendOk(s, x);
    }
    forall x | x in s.spends
      ensures Apart(x, Spend(id, Step(step)))
    {
      assert SpendOk(s, x);
    }
  }

  lemma NextKeepsInv(s: State, ev: Event)
    requires Inv(s) && Allowed(s, ev)
    ensures Inv(Next(s, ev))
  {
    match ev
    case SignIn(f, proof) =>
      if Spendable(s, f, proof) {
        SpendKeepsInv(s, f, proof);
        OtherFieldsDoNotMatter(Spent(s, f, proof), Next(s, ev));
      }
    case Remove(_, f, proof) =>
      if Spendable(s, f, proof) {
        SpendKeepsInv(s, f, proof);
        var t := Spent(s, f, proof);
        assert forall x | x in t.spends :: SpendOk(t, x);
      }
    case Confirm(session, replacing, id, step, newCodes) =>
      if replacing.None? {
        InstallKeepsInv(s, session, id, step, newCodes);
      } else if Spendable(s, replacing.value.factor, replacing.value.proof) {
        SpendKeepsInv(s, replacing.value.factor, replacing.value.proof);
        InstallKeepsInv(Spent(s, replacing.value.factor, replacing.value.proof), session, id, step, newCodes);
      }
    case Clear => assert forall x | x in s.spends :: SpendOk(s, x);
    case _ => OtherFieldsDoNotMatter(s, Next(s, ev));
  }

  lemma OtherFieldsDoNotMatter(s: State, t: State)
    requires forall x | x in s.spends :: SpendOk(s, x)
    requires t.codes == s.codes && t.codeIds == s.codeIds && t.factorIds == s.factorIds
    requires Current(t) == Current(s) && (t.factor.Some? ==> t.factor.value.lastStep == s.factor.value.lastStep)
    ensures forall x | x in s.spends :: SpendOk(t, x)
  {
    forall x | x in s.spends
      ensures SpendOk(t, x)
    {
      assert SpendOk(s, x);
    }
  }

  lemma {:induction false} RunKeepsInv(evs: seq<Event>)
    requires Run(evs)
    ensures Inv(After(evs))
  {
    if evs != [] {
      RunKeepsInv(evs[..|evs| - 1]);
      NextKeepsInv(After(evs[..|evs| - 1]), evs[|evs| - 1]);
    }
  }

  /** Each recovery code is spent successfully at most once, and each factor's
      time steps strictly upwards, so none of them twice. */
  lemma SpentAtMostOnce(evs: seq<Event>, i: nat, j: nat)
    requires Run(evs) && i < j < |After(evs).spends|
    ensures Apart(After(evs).spends[i], After(evs).spends[j])
    ensures After(evs).spends[i] != After(evs).spends[j]
  {
    RunKeepsInv(evs);
  }

  /** Every live session was opened, or carried over, behind the factor the
      account has now. */
  lemma NoSessionPastTheGate(evs: seq<Event>, session: nat)
    requires Run(evs) && session in After(evs).sessions
    ensures After(evs).sessions[session] == Current(After(evs))
  {
    RunKeepsInv(evs);
  }

  // ----- the replacement budget -----

  /** The counted tries against this factor since the last sign-in with it. */
  function Tries(evs: seq<Event>, f: nat): nat {
    if evs == [] then 0
    else
      var before, ev := evs[..|evs| - 1], evs[|evs| - 1];
      if Current(After(evs)) != Some(f) || (ev.SignIn? && ev.factor == f && Spendable(After(before), f, ev.proof)) then 0
      else Tries(before, f) + if ev == Try(f) && After(evs) != After(before) then 1 else 0
  }

  /** A session alone gets ten tries at replacing a factor; only proving the
      factor at sign-in opens ten more. */
  lemma {:induction false} TenTriesBetweenSignIns(evs: seq<Event>, f: nat)
    requires Run(evs)
    ensures Tries(evs, f) == if Current(After(evs)) == Some(f) then After(evs).factor.value.tries else 0
    ensures Tries(evs, f) <= MAX_ATTEMPTS
  {
    RunKeepsInv(evs);
    if evs != [] {
      RunKeepsInv(evs[..|evs| - 1]);
      TenTriesBetweenSignIns(evs[..|evs| - 1], f);
    }
  }

  // ----- the rows, updated in place -----

  class FactorRows {
    var factor: Option<Factor>
    var codes: map<nat, bool>
    var sessions: map<nat, Option<nat>>

    constructor ()
      ensures Is(Init())
    {
      factor, codes, sessions := None, map[], map[];
    }

    ghost predicate Is(s: State)
      reads this
    {
      factor == s.factor && codes == s.codes && sessions == s.sessions
    }

    /** `_spend`: one conditional update, of a code or of the last step. */
    method SpendProof(id: nat, proof: Proof, ghost s: State) returns (spent: bool)
      requires Is(s)
      modifies this`factor, this`codes
      ensures spent <==> Spendable(s, id, proof)
      ensures Is(if spent then Spent(s, id, proof) else s)
    {
      match proof
      case Code(c) =>
        spent := c in codes && codes[c];
        if spent {
          codes := codes[c := false];
        }
      case Step(n) =>
        spent := factor.Some? && factor.value.id == id
                 && (factor.value.lastStep.None? || factor.value.lastStep.value < n);
        if spent {
          factor := Some(factor.value.(lastStep := Some(n)));
        }
    }

    method CountTry(id: nat, ghost s: State) returns (counted: bool)
      requires Is(s)
      modifies this`factor
      ensures Is(Next(s, Try(id)))
      ensures counted <==> Next(s, Try(id)) != s
    {
      counted := factor.Some? && factor.value.id == id && factor.value.tries < MAX_ATTEMPTS;
      if counted {
        factor := Some(factor.value.(tries := factor.value.tries + 1));
      }
    }

    /** The last transaction of a sign-in: spend the proof, and only then forget
        the replacement tries. */
    method AnswerChallenge(id: nat, proof: Proof, ghost s: State) returns (won: bool)
      requires Is(s)
      modifies this
      ensures Is(Next(s, SignIn(id, proof)))
      ensures won <==> Spendable(s, id, proof)
    {
      won := SpendProof(id, proof, s);
      if won && factor.Some? && factor.value.id == id {
        factor := Some(factor.value.(tries := 0));
      }
    }

    method MintBehindTheGate(session: nat, expected: Option<nat>, ghost s: State) returns (minted: bool)
      requires Is(s)
      modifies this`sessions
      ensures Is(Next(s, Mint(session, expected)))
      ensures minted <==> Current(s) == expected
    {
      var current := if factor.Some? then Some(factor.value.id) else None;
      minted := current == expected;
      if minted {
        sessions := sessions[session := expected];
      }
    }

    /** Removal spends the proof first; anything refused after it rolls back. */
    method RemoveFactor(session: nat, id: nat, proof: Proof, ghost s: State) returns (removed: bool)
      requires Is(s)
      modifies this
      ensures Is(Next(s, Remove(session, id, proof)))
      ensures removed <==> Spendable(s, id, proof) && Current(s) == Some(id) && session in s.sessions
    {
      var factorBefore, codesBefore := factor, codes;
      var spent := SpendProof(id, proof, s);
      if !spent {
        return false;
      }
      if factor.None? || factor.value.id != id || session !in sessions {
        factor, codes := factorBefore, codesBefore;
        return false;
      }
      factor, codes := None, map[];
      sessions := map[session := None];
      removed := true;
    }

    /** Confirmation of a first enrolment or of a replacement. */
    method ConfirmEnrolment(session: nat, replacing: Option<Spend>, id: nat, step: int, newCodes: set<nat>,
                            ghost s: State) returns (confirmed: bool)
      requires Is(s)
      modifies this
      ensures Is(Next(s, Confirm(session, replacing, id, step, newCodes)))
      ensures confirmed <==>
        session in s.sessions
        && if replacing.None? then s.factor.None?
           else Spendable(s, replacing.value.factor, replacing.value.proof)
                && Current(s) == Some(replacing.value.factor)
    {
      var factorBefore, codesBefore := factor, codes;
      if replacing.Some? {
        var spent := SpendProof(replacing.value.factor, replacing.value.proof, s);
        if !spent {
          return false;
        }
        if factor.None? || factor.value.id != replacing.value.factor || session !in sessions {
          factor, codes := factorBefore, codesBefore;
          return false;
        }
        factor := None;
      } else if session !in sessions {
        return false;
      }
      if factor.Some? {
        return false;
      }
      factor := Some(Factor(id, Some(step), 0));
      codes := map c | c in newCodes :: true;
      sessions := map[session := Some(id)];
      confirmed := true;
    }
  }
}

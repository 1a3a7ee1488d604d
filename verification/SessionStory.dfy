/** What opening, updating and closing a session mean for the acknowledgements
    that come afterwards. */
module SessionStory {
  import opened Wrappers
  import opened Journal
  import opened Sessions
  import opened SessionRuns

  /** The steps that give a session another state: its own, and an opening. */
  predicate Moves(e: Event, sid: nat) {
    || (e.SessionMoves? && e.session == sid)
    || (e.Send? && e.draft.kind == OpenSession && SubjectId(e.draft.subject) == sid)
  }

  /** No acknowledgement whatever would put an update of this session into
      effect. */
  ghost predicate Mute(w: World, sid: nat) {
    forall conn, ack, env | conn in w.conns && Publishes(w, conn, ack, env) ::
      w.conns[conn].rows[ack.common.sequence].subjectId != sid
  }

  predicate Quiet(s: Session) {
    !s.state.Live? && !s.state.Idle?
  }

  lemma QuietIsMute(w: World, sid: nat)
    requires sid in w.sessions && Quiet(w.sessions[sid])
    ensures Mute(w, sid)
  {
  }

  lemma PreparedKeepsQuiet(w: World, conn: nat, draft: Draft, ctx: Context, env: Env, pending: bool,
                           jobCurrent: bool, sid: nat)
    requires sid in w.sessions && Quiet(w.sessions[sid])
    requires !(draft.kind == OpenSession && SubjectId(draft.subject) == sid)
    ensures var prepared := Prepared(w, conn, draft, ctx, env, pending, jobCurrent);
      prepared.Some? ==> sid in prepared.value.sessions && Quiet(prepared.value.sessions[sid])
  {
  }

  lemma SendKeepsQuiet(h: History, e: Event, sid: nat)
    requires sid in h.world.sessions && Quiet(h.world.sessions[sid]) && e.Send? && !Moves(e, sid)
    ensures sid in Sent(h, e).world.sessions && Quiet(Sent(h, e).world.sessions[sid])
  {
    if Goes(h, e) {
      PreparedKeepsQuiet(h.world, e.conn, e.draft, e.ctx, e.env, BlocksClose(h, e), e.jobCurrent, sid);
      CommittedSubject(h, e);
    }
  }

  /** A commit leaves the session and attempt rows as its subject part does. */
  lemma CommittedSubject(h: History, e: Event)
    requires Goes(h, e)
    ensures var prepared := Prepared(h.world, e.conn, e.draft, e.ctx, e.env, BlocksClose(h, e), e.jobCurrent);
      && prepared.Some?
      && Sent(h, e).world.sessions == prepared.value.sessions && Sent(h, e).world.attempts == prepared.value.attempts
  {
    match e.draft.kind
    case OpenSession =>
    case UpdateSession =>
    case _ =>
  }

  lemma StepKeepsQuiet(h: History, e: Event, sid: nat)
    requires sid in h.world.sessions && Quiet(h.world.sessions[sid]) && !Moves(e, sid)
    ensures sid in Next(h, e).world.sessions && Quiet(Next(h, e).world.sessions[sid])
  {
    match e
    case Send(_, _, _, _, _, _) => SendKeepsQuiet(h, e, sid);
    case _ =>
  }

  lemma {:induction false} QuietStays(h: History, events: seq<Event>, sid: nat)
    requires sid in h.world.sessions && Quiet(h.world.sessions[sid])
    requires forall e | e in events :: !Moves(e, sid)
    ensures sid in Run(h, events).world.sessions && Quiet(Run(h, events).world.sessions[sid])
    decreases |events|
  {
    if events != [] {
      var before := events[..|events| - 1];
      assert events[|events| - 1] in events && forall e | e in before :: e in events;
      QuietStays(h, before, sid);
      StepKeepsQuiet(Run(h, before), events[|events| - 1], sid);
    }
  }

  lemma ClosedState(h: History, e: Event)
    requires Goes(h, e) && e.draft.kind == CloseSession
    ensures e.draft.subject.SessionSubject? && e.draft.subject.sessionId in h.world.sessions
    ensures var sid := e.draft.subject.sessionId;
      && h.world.sessions[sid].state.Live?
      && Sent(h, e).world.sessions
         == h.world.sessions[sid := h.world.sessions[sid].(state := if e.ctx.terminal then SessionState.Ending
                                                                    else SessionState.Idle)]
      && Sent(h, e).world.attempts == h.world.attempts
  {
    CommittedSubject(h, e);
  }

  /** After a terminal close was committed, no acknowledgement publishes to that
      session, whatever else is committed, acknowledged or erased, until its
      state moves again. */
  lemma TerminalCloseSilences(h: History, e: Event, events: seq<Event>)
    requires Goes(h, e) && e.draft.kind == CloseSession && e.ctx.terminal
    requires e.draft.subject.SessionSubject?
    requires forall f | f in events :: !Moves(f, e.draft.subject.sessionId)
    ensures Mute(Run(Sent(h, e), events).world, e.draft.subject.sessionId)
  {
    ClosedState(h, e);
    QuietStays(Sent(h, e), events, e.draft.subject.sessionId);
    QuietIsMute(Run(Sent(h, e), events).world, e.draft.subject.sessionId);
  }

  // ----- an idle release -----

  /** Nothing but the row of sequence `k` of `conn` differs between the two
      journals, as far as acknowledgements are concerned. */
  predicate OneMoreRow(conns: map<nat, Connection>, conns': map<nat, Connection>, conn: nat, row: Row) {
    && conn in conns && conns[conn].next !in conns[conn].rows
    && conns' == conns[conn := Appended(conns[conn], row)]
  }

  lemma SentOneMoreRow(h: History, e: Event)
    requires AllValid(h.world.conns) && Goes(h, e)
    ensures e.env.writeKey.Some? && OneMoreRow(h.world.conns, Sent(h, e).world.conns, e.conn, NewRow(h, e))
  {
    SentConnections(h, e);
    SentJournal(h, e);
    assert h.world.conns[e.conn].next !in h.world.conns[e.conn].rows;
  }

  /** Sessions differ in nothing but which of live and idle they are. */
  predicate SameButIdle(sessions: map<nat, Session>, sessions': map<nat, Session>) {
    && sessions'.Keys == sessions.Keys
    && forall s | s in sessions ::
         (&& sessions'[s] == sessions[s].(state := sessions'[s].state)
          && (Quiet(sessions'[s]) <==> Quiet(sessions[s])))
  }

  lemma ReleasedIsSame(sessions: map<nat, Session>, sid: nat)
    requires sid in sessions && sessions[sid].state.Live?
    ensures SameButIdle(sessions, sessions[sid := sessions[sid].(state := SessionState.Idle)])
  {
  }

  /** Neither the new row nor a session between live and idle makes any
      difference to an acknowledgement of another command. */
  lemma SamePublication(w: World, w': World, conn: nat, row: Row, c: nat, ack: Ack, env: Env)
    requires OneMoreRow(w.conns, w'.conns, conn, row) && w'.attempts == w.attempts && c in w.conns
    requires SameButIdle(w.sessions, w'.sessions)
    requires !(c == conn && ack.common.sequence == w.conns[conn].next)
    ensures Publishes(w', c, ack, env) <==> Publishes(w, c, ack, env)
  {
  }

  lemma NothingForAClose(w: World, c: nat, ack: Ack, env: Env)
    requires c in w.conns
    requires ack.common.sequence in w.conns[c].rows ==> w.conns[c].rows[ack.common.sequence].kind != UpdateSession
    ensures !Publishes(w, c, ack, env)
  {
  }

  lemma ClosingRow(h: History, e: Event)
    requires AllValid(h.world.conns) && Goes(h, e) && e.draft.kind == CloseSession
    requires e.env.writeKey.Some? && OneMoreRow(h.world.conns, Sent(h, e).world.conns, e.conn, NewRow(h, e))
    ensures var c := Sent(h, e).world.conns[e.conn];
      h.world.conns[e.conn].next in c.rows && c.rows[h.world.conns[e.conn].next].kind == CloseSession
  {
  }

  /** A committed idle release changes nothing for acknowledgements: each one,
      now or under any other ring, owner and bindings, publishes after it if and
      only if it would have published before. */
  lemma IdleReleaseChangesNothing(h: History, e: Event, c: nat, ack: Ack, env: Env)
    requires AllValid(h.world.conns) && Goes(h, e) && e.draft.kind == CloseSession && !e.ctx.terminal
    requires c in h.world.conns
    ensures c in Sent(h, e).world.conns
    ensures Publishes(Sent(h, e).world, c, ack, env) <==> Publishes(h.world, c, ack, env)
  {
    ClosedState(h, e);
    ReleasedIsSame(h.world.sessions, e.draft.subject.sessionId);
    SentOneMoreRow(h, e);
    ClosingRow(h, e);
    if c == e.conn && ack.common.sequence == h.world.conns[c].next {
      NothingForAClose(h.world, c, ack, env);
      NothingForAClose(Sent(h, e).world, c, ack, env);
    } else {
      SamePublication(h.world, Sent(h, e).world, e.conn, NewRow(h, e), c, ack, env);
    }
  }

  // ----- an opening -----

  lemma OpenedState(h: History, e: Event)
    requires Goes(h, e) && e.draft.kind == OpenSession
    ensures e.draft.subject.SessionSubject?
    ensures var sid := e.draft.subject.sessionId;
      && sid in Sent(h, e).world.sessions
      && Sent(h, e).world.sessions[sid].state.Assigning?
      && Sent(h, e).world.sessions[sid].generation == e.draft.subject.generation
      && (sid in h.world.sessions ==>
            && Sent(h, e).world.sessions[sid].user == h.world.sessions[sid].user == e.draft.account
            && Sent(h, e).world.sessions[sid].authSession == h.world.sessions[sid].authSession
            && h.world.sessions[sid].browserOwner == e.ctx.browserOwner
            && h.world.sessions[sid].generation <= e.draft.subject.generation)
      && Sent(h, e).world.attempts
         == h.world.attempts[AttemptKey(sid, e.draft.subject.generation) :=
                               Attempt(e.conn, e.draft.subject.attemptId, Opening, Some(Range(e.draft.account, true)))]
      && AttemptKey(sid, e.draft.subject.generation) !in h.world.attempts
  {
    CommittedSubject(h, e);
  }

  predicate Succeeds(sessions: map<nat, Session>, sid: nat, generation: nat) {
    sid in sessions && generation <= sessions[sid].generation
  }

  lemma PreparedKeepsGeneration(w: World, conn: nat, draft: Draft, ctx: Context, env: Env, pending: bool,
                                jobCurrent: bool, sid: nat, generation: nat)
    requires Succeeds(w.sessions, sid, generation)
    ensures var prepared := Prepared(w, conn, draft, ctx, env, pending, jobCurrent);
      prepared.Some? ==> Succeeds(prepared.value.sessions, sid, generation)
  {
  }

  lemma AckKeepsGeneration(w: World, conn: nat, ack: Ack, env: Env, sid: nat, generation: nat)
    requires conn in w.conns && Succeeds(w.sessions, sid, generation)
    ensures Succeeds(AckIn(w, conn, ack, env).sessions, sid, generation)
  {
  }

  lemma StepKeepsGeneration(h: History, e: Event, sid: nat, generation: nat)
    requires Succeeds(h.world.sessions, sid, generation)
    ensures Succeeds(Next(h, e).world.sessions, sid, generation)
  {
    if e.Send? {
      if Goes(h, e) {
        PreparedKeepsGeneration(h.world, e.conn, e.draft, e.ctx, e.env, BlocksClose(h, e), e.jobCurrent, sid,
                                generation);
        CommittedSubject(h, e);
      }
    } else if e.Receive? {
      if e.conn in h.world.conns {
        AckKeepsGeneration(h.world, e.conn, e.ack, e.env, sid, generation);
      }
    } else {
      match e
      case SessionMoves(_, _) =>
      case _ =>
    }
  }

  lemma {:induction false} GenerationsRise(h: History, events: seq<Event>, sid: nat, generation: nat)
    requires Succeeds(h.world.sessions, sid, generation)
    ensures Succeeds(Run(h, events).world.sessions, sid, generation)
    decreases |events|
  {
    if events != [] {
      GenerationsRise(h, events[..|events| - 1], sid, generation);
      StepKeepsGeneration(Run(h, events[..|events| - 1]), events[|events| - 1], sid, generation);
    }
  }

  /** Once an opening was committed, no update of an earlier generation of that
      session ever takes effect again. */
  lemma OpeningSupersedes(h: History, e: Event, events: seq<Event>, c: nat, ack: Ack, env: Env)
    requires Goes(h, e) && e.draft.kind == OpenSession && e.draft.subject.SessionSubject?
    requires c in Run(Sent(h, e), events).world.conns && Publishes(Run(Sent(h, e), events).world, c, ack, env)
    ensures var row := Run(Sent(h, e), events).world.conns[c].rows[ack.common.sequence];
      row.subjectId == e.draft.subject.sessionId ==> row.subjectSequence >= e.draft.subject.generation
  {
    OpenedState(h, e);
    GenerationsRise(Sent(h, e), events, e.draft.subject.sessionId, e.draft.subject.generation);
  }

  // ----- an update, from its commit to its effect -----

  /** The worker's acceptance of the command that `e` committed. */
  function Acceptance(h: History, e: Event): Ack
    requires e.Send? && e.conn in h.world.conns
  {
    Ack(e.draft.common.(sequence := h.world.conns[e.conn].next), e.draft.subject, Accepted)
  }

  predicate Receivable(w: World, conn: nat, draft: Draft, key: nat, env: Env)
    requires draft.subject.SessionSubject? && conn in w.conns
  {
    var sid := draft.subject.sessionId;
    var attempt := AttemptKey(sid, draft.subject.generation);
    && w.conns[conn].transportOwner == env.transport && key in env.ring
    && sid in w.sessions && attempt in w.attempts
    && !Quiet(w.sessions[sid]) && w.sessions[sid].browserOwner == env.transport
    && Binding(w.sessions[sid].user, w.sessions[sid].authSession) in env.live
    && w.attempts[attempt].state.Running? && w.attempts[attempt].range == Some(Range(w.sessions[sid].user, true))
  }

  lemma UpdatedState(h: History, e: Event)
    requires Inv(h) && Goes(h, e) && e.draft.kind == UpdateSession
    ensures e.draft.subject.SessionSubject? && e.draft.subject.sessionId in h.world.sessions
    ensures var s := h.world.sessions[e.draft.subject.sessionId];
      && Sent(h, e).world.sessions
         == h.world.sessions[e.draft.subject.sessionId := s.(desired := e.draft.params,
                                                            desiredRevision := e.draft.paramsRevision)]
      && Sent(h, e).world.attempts == h.world.attempts
      && s.paramsRevision < e.draft.paramsRevision && s.user == e.draft.account && s.model == e.draft.model
      && s.generation == e.draft.subject.generation
      && AttemptHere(h.world, e.conn, e.draft.subject)
  {
    CommittedSubject(h, e);
    assert Backed(e.draft.subject.sessionId, h.world.sessions[e.draft.subject.sessionId], h.named);
  }

  lemma AcceptancePublishes(h: History, e: Event, env: Env)
    requires Inv(h) && Goes(h, e) && e.draft.kind == UpdateSession
    ensures e.draft.subject.SessionSubject? && e.env.writeKey.Some? && e.conn in Sent(h, e).world.conns
    ensures Publishes(Sent(h, e).world, e.conn, Acceptance(h, e), env)
            <==> Receivable(h.world, e.conn, e.draft, e.env.writeKey.value, env)
    ensures Publishes(Sent(h, e).world, e.conn, Acceptance(h, e), env) ==>
      Sent(h, e).world.conns[e.conn].rows[h.world.conns[e.conn].next] == NewRow(h, e)
  {
    UpdatedState(h, e);
    SentOneMoreRow(h, e);
    var w := Sent(h, e).world;
    var sid := e.draft.subject.sessionId;
    AcceptedRow(w.conns[e.conn], NewRow(h, e), h.world.conns[e.conn].next, Acceptance(h, e), env);
    CurrentWhenReceivable(w, e.conn, e.draft, h.world.conns[e.conn].next, e.env.writeKey.value, Acceptance(h, e), env);
    assert Receivable(w, e.conn, e.draft, e.env.writeKey.value, env)
      <==> Receivable(h.world, e.conn, e.draft, e.env.writeKey.value, env);
  }

  lemma CurrentWhenReceivable(w: World, conn: nat, draft: Draft, k: nat, key: nat, ack: Ack, env: Env)
    requires draft.subject.SessionSubject? && conn in w.conns && draft.kind == UpdateSession && ack.status.Accepted?
    requires draft.subject.sessionId in w.sessions
    requires var s := w.sessions[draft.subject.sessionId];
      && s.user == draft.account && s.model == draft.model && s.generation == draft.subject.generation
      && AttemptHere(w, conn, draft.subject)
    ensures w.conns[conn].transportOwner == env.transport ==>
      (Current(w, conn, PendingRow(draft, k, key), ack, env) <==> Receivable(w, conn, draft, key, env))
  {
  }

  /** A committed update that is accepted before anything else happens takes
      effect exactly when the session is running for the process that receives
      it, and both sides of the session then hold what was asked for. */
  lemma AcceptedUpdateTakesEffect(h: History, e: Event, env: Env)
    requires Inv(h) && Goes(h, e) && e.draft.kind == UpdateSession
    ensures e.draft.subject.SessionSubject? && e.env.writeKey.Some? && e.conn in Sent(h, e).world.conns
    ensures var w', ack := Sent(h, e).world, Acceptance(h, e);
      && (Publishes(w', e.conn, ack, env) <==> Receivable(h.world, e.conn, e.draft, e.env.writeKey.value, env))
      && (Publishes(w', e.conn, ack, env) ==>
            var sid := e.draft.subject.sessionId;
            && sid in AckIn(w', e.conn, ack, env).sessions
            && var s := AckIn(w', e.conn, ack, env).sessions[sid];
               s.effective == s.desired == e.draft.params && s.paramsRevision == s.desiredRevision == e.draft.paramsRevision)
  {
    AcceptancePublishes(h, e, env);
    UpdatedState(h, e);
  }

  lemma AcceptedRow(c: Connection, row: Row, k: nat, ack: Ack, env: Env)
    requires k in c.rows && c.rows[k] == row && RowFits(k, row) && row.state == Pending && ack.status.Accepted?
    requires row.identity == Some(Identity(row.kind, ack.common, ack.subject)) && ack.common.sequence == k
    ensures Records(c, ack, env.ring, env.transport) <==> c.transportOwner == env.transport
  {
    IdentityImpliesMatch(k, row, ack);
  }

  // ----- whose session it is -----

  /** The committing process speaks for the session: its account, its browser
      and, unless it opens a later generation, the open attempt it names. */
  predicate SpeaksFor(w: World, e: Event, sid: nat)
    requires e.Send? && sid in w.sessions
  {
    var s := w.sessions[sid];
    && e.draft.subject.SessionSubject? && e.draft.subject.sessionId == sid && s.user == e.draft.account
    && (e.draft.kind == OpenSession ==>
          s.browserOwner == e.ctx.browserOwner && s.generation <= e.draft.subject.generation)
    && (e.draft.kind != OpenSession ==>
          && s.generation == e.draft.subject.generation && AttemptHere(w, e.conn, e.draft.subject)
          && Binding(s.user, s.authSession) in e.env.live
          && s.browserOwner == (if e.draft.kind == UpdateSession then e.ctx.browserOwner else e.env.transport)
          && (e.draft.kind == UpdateSession ==> s.authSession == e.ctx.authSession && s.model == e.draft.model))
  }

  /** No commit changes a session, or any attempt of it, for anybody else. */
  lemma ChangedForItsOwner(h: History, e: Event, sid: nat)
    requires e.Send? && sid in h.world.sessions
    ensures sid in Sent(h, e).world.sessions
    ensures Sent(h, e).world.sessions[sid] != h.world.sessions[sid] ==> SpeaksFor(h.world, e, sid)
    ensures Sent(h, e).world.sessions[sid].user == h.world.sessions[sid].user
    ensures forall g: nat | AttemptKey(sid, g) in h.world.attempts ::
      AttemptKey(sid, g) in Sent(h, e).world.attempts
      && Sent(h, e).world.attempts[AttemptKey(sid, g)] == h.world.attempts[AttemptKey(sid, g)]
  {
    if Goes(h, e) {
      CommittedSubject(h, e);
    }
  }

  /** Whether the subject of an offer is still the one it was made for: a later
      generation of the same session or a new one, the next revision of the
      present one, a live session to release, one with nothing pending to end,
      a job that still wants it. */
  predicate StillWanted(h: History, e: Event)
    requires e.Send?
  {
    var w, sid := h.world, SubjectId(e.draft.subject);
    match e.draft.kind
    case OpenSession =>
      && e.draft.subject.SessionSubject? && AttemptKey(sid, e.draft.subject.generation) !in w.attempts
      && (sid in w.sessions ==> SpeaksFor(w, e, sid))
    case UpdateSession =>
      && sid in w.sessions && SpeaksFor(w, e, sid) && w.sessions[sid].desiredRevision == e.ctx.baseRevision
      && e.draft.paramsRevision == e.ctx.baseRevision + 1 && 1 <= e.ctx.baseRevision < 0x7fff_ffff_ffff_fffe
    case CloseSession =>
      && sid in w.sessions && SpeaksFor(w, e, sid) && w.sessions[sid].state.Live?
      && (e.ctx.terminal ==> !PendingFor(w, sid, e.draft.subject.generation))
    case DispatchJob => e.draft.subject.JobSubject? && e.jobCurrent
    case CancelJob => e.draft.subject.JobSubject? && e.jobCurrent
  }

  /** A commit finds its subject current if and only if it is. */
  lemma SubjectFoundExactly(h: History, e: Event)
    requires e.Send? && e.conn in h.world.conns
    ensures FoundBy(h, e).subject <==> StillWanted(h, e)
  {
    match e.draft.kind
    case OpenSession =>
    case UpdateSession =>
    case CloseSession =>
    case DispatchJob =>
    case CancelJob =>
  }

  /** An update takes effect only over the connection and for the attempt it was
      committed to, while that attempt runs and its range is outstanding, and
      only for the account, generation and model it was built for. */
  lemma OnlyThroughItsAttempt(w: World, conn: nat, ack: Ack, env: Env)
    requires conn in w.conns && Publishes(w, conn, ack, env)
    ensures var row := w.conns[conn].rows[ack.common.sequence];
      && row.body.Some? && row.body.value.identity.subject.SessionSubject? && row.subjectId in w.sessions
      && AttemptKey(row.subjectId, row.subjectSequence) in w.attempts
      && var s, a := w.sessions[row.subjectId], w.attempts[AttemptKey(row.subjectId, row.subjectSequence)];
         && a.conn == conn && a.attemptId == row.body.value.identity.subject.attemptId && a.state.Running?
         && a.range == Some(Range(s.user, true)) && row.account == Some(s.user)
         && s.generation == row.subjectSequence && s.model == row.body.value.model
         && s.paramsRevision < row.body.value.paramsRevision
  {
  }
}

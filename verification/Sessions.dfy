/** Realtime sessions and the journals that carry their parameter updates.

    A session row holds the parameters the browser wants (desired, with its
    revision) and the ones the worker has confirmed (effective, with its own).
    Opening, updating and closing a session change the row in the same
    transaction that appends the command; an accepted acknowledgement moves the
    effective side. Parameter sets, models and identifiers are opaque numbers. */
module Sessions {
  import opened Wrappers
  import opened Journal

  datatype SessionState = Assigning | Live | Idle | Ending | Ended

  datatype Session = Session(
    user: nat, authSession: Option<nat>, browserOwner: nat, model: nat, state: SessionState,
    generation: nat, effective: nat, paramsRevision: nat, desired: nat, desiredRevision: nat)

  datatype AttemptState = Opening | Running | Finished

  datatype Range = Range(account: nat, outstanding: bool)

  datatype Attempt = Attempt(conn: nat, attemptId: nat, state: AttemptState, range: Option<Range>)

  /** Attempts are keyed by (session, control_generation). */
  datatype AttemptKey = AttemptKey(session: nat, generation: nat)

  datatype World = World(
    conns: map<nat, Connection>, sessions: map<nat, Session>, attempts: map<AttemptKey, Attempt>)

  /** What lies outside these tables: the key ring, the process that owns the
      transport, and the browser bindings that are live. */
  datatype Env = Env(ring: set<nat>, writeKey: Option<nat>, transport: nat, live: set<Binding>)

  datatype Binding = Binding(user: nat, authSession: Option<nat>)

  datatype Context = Context(authSession: Option<nat>, browserOwner: nat, baseRevision: nat, terminal: bool)

  // ----- committing a command with its subject -----

  predicate AttemptHere(w: World, conn: nat, subject: Subject)
    requires subject.SessionSubject?
  {
    var key := AttemptKey(subject.sessionId, subject.generation);
    && key in w.attempts
    && w.attempts[key].conn == conn && w.attempts[key].attemptId == subject.attemptId
    && (w.attempts[key].state.Opening? || w.attempts[key].state.Running?)
  }

  /** open_session: the row is created, or taken over for a later generation. */
  function Opened(w: World, conn: nat, draft: Draft, ctx: Context): Option<World>
    requires draft.subject.SessionSubject?
  {
    var sid, gen := draft.subject.sessionId, draft.subject.generation;
    var key := AttemptKey(sid, gen);
    if sid in w.sessions && (w.sessions[sid].user != draft.account
                             || w.sessions[sid].browserOwner != ctx.browserOwner
                             || w.sessions[sid].generation > gen)
    then None
    else if key in w.attempts then None  // the attempt's primary key refuses a second row
    else
      var created := Session(draft.account, ctx.authSession, ctx.browserOwner, draft.model, Assigning, gen,
                           draft.params, 1, draft.params, 1);
      var kept := if sid in w.sessions
                  then created.(user := w.sessions[sid].user, authSession := w.sessions[sid].authSession,
                              browserOwner := w.sessions[sid].browserOwner)
                  else created;
      Some(w.(sessions := w.sessions[sid := kept],
              attempts := w.attempts[key := Attempt(conn, draft.subject.attemptId, Opening,
                                                    Some(Range(draft.account, true)))]))
  }

  /** update_session: a compare-and-set of the desired side. */
  function Updated(w: World, conn: nat, draft: Draft, ctx: Context, env: Env): Option<World>
    requires draft.subject.SessionSubject?
  {
    var sid := draft.subject.sessionId;
    if !(1 <= ctx.baseRevision && ctx.baseRevision + 1 < MAX_SEQUENCE
         && draft.paramsRevision == ctx.baseRevision + 1)
    then None
    else if sid !in w.sessions then None
    else
      var s := w.sessions[sid];
      if s.generation == draft.subject.generation && s.user == draft.account
         && s.authSession == ctx.authSession && s.browserOwner == ctx.browserOwner
         && Binding(s.user, s.authSession) in env.live && s.model == draft.model
         && s.desiredRevision == ctx.baseRevision && AttemptHere(w, conn, draft.subject)
      then Some(w.(sessions := w.sessions[sid := s.(desired := draft.params,
                                                     desiredRevision := draft.paramsRevision)]))
      else None
  }

  /** close_session: an idle release, or the end the browser asked for. */
  function Closed(w: World, conn: nat, draft: Draft, ctx: Context, env: Env, pending: bool): Option<World>
    requires draft.subject.SessionSubject?
  {
    var sid := draft.subject.sessionId;
    if sid !in w.sessions then None
    else
      var s := w.sessions[sid];
      if s.generation == draft.subject.generation && s.user == draft.account && s.state.Live?
         && s.browserOwner == env.transport && Binding(s.user, s.authSession) in env.live
         && AttemptHere(w, conn, draft.subject) && !(ctx.terminal && pending)
      then Some(w.(sessions := w.sessions[sid := s.(state := if ctx.terminal then Ending else Idle)]))
      else None
  }

  /** `jobCurrent` is the job row's own check for the two job commands. */
  function Prepared(w: World, conn: nat, draft: Draft, ctx: Context, env: Env,
                    pending: bool, jobCurrent: bool): Option<World> {
    if IsSessionKind(draft.kind) != draft.subject.SessionSubject? then None
    else match draft.kind
      case OpenSession => Opened(w, conn, draft, ctx)
      case UpdateSession => Updated(w, conn, draft, ctx, env)
      case CloseSession => Closed(w, conn, draft, ctx, env, pending)
      case DispatchJob => if jobCurrent then Some(w) else None
      case CancelJob => if jobCurrent then Some(w) else None
  }

  /** What a commit sees of its subject and of the transport it runs on. */
  function Found(w: World, conn: nat, draft: Draft, ctx: Context, env: Env, seen: Seen,
                 pending: bool, jobCurrent: bool): Seen {
    seen.(subject := Prepared(w, conn, draft, ctx, env, pending, jobCurrent).Some?, transport := env.transport)
  }

  /** The whole transaction: subject and journal change together, or it is
      refused and neither does. */
  function CommitBoth(w: World, conn: nat, draft: Draft, ctx: Context, env: Env, seen: Seen,
                      pending: bool, jobCurrent: bool): Result<World, Refusal>
    requires conn in w.conns
  {
    var found := Found(w, conn, draft, ctx, env, seen, pending, jobCurrent);
    match Commit(w.conns[conn], draft, found, env.writeKey)
    case Err(e) => Err(e)
    case Ok(c) =>
      Ok(Prepared(w, conn, draft, ctx, env, pending, jobCurrent).value.(conns := w.conns[conn := c]))
  }

  function CommitIn(w: World, conn: nat, draft: Draft, ctx: Context, env: Env, seen: Seen,
                    pending: bool, jobCurrent: bool): World
    requires conn in w.conns
  {
    match CommitBoth(w, conn, draft, ctx, env, seen, pending, jobCurrent)
    case Err(_) => w
    case Ok(w') => w'
  }

  predicate Commits(w: World, conn: nat, draft: Draft, ctx: Context, env: Env, seen: Seen,
                    pending: bool, jobCurrent: bool)
    requires conn in w.conns
  {
    CommitBoth(w, conn, draft, ctx, env, seen, pending, jobCurrent).Ok?
  }

  // ----- acknowledging -----

  /** Everything but the revision that an update needs to take effect. */
  predicate Current(w: World, conn: nat, row: Row, ack: Ack, env: Env) {
    && row.state == Pending && row.account.Some? && Readable(row, env.ring) && row.body.Some?
    && ack.status.Accepted? && row.kind.UpdateSession?
    && row.subjectId in w.sessions
    && var s := w.sessions[row.subjectId];
    && var key := AttemptKey(row.subjectId, row.subjectSequence);
    && var body := row.body.value;
    && s.generation == row.subjectSequence
    && key in w.attempts && w.attempts[key].range.Some?
    && s.user == row.account.value && s.model == body.model
    && (s.state.Live? || s.state.Idle?) && s.browserOwner == env.transport
    && Binding(row.account.value, s.authSession) in env.live
    && w.attempts[key].conn == conn
    && body.identity.subject.SessionSubject?
    && w.attempts[key].attemptId == body.identity.subject.attemptId
    && w.attempts[key].state.Running?
    && w.attempts[key].range.value == Range(row.account.value, true)
  }

  predicate Publishes(w: World, conn: nat, ack: Ack, env: Env)
    requires conn in w.conns
  {
    && Records(w.conns[conn], ack, env.ring, env.transport)
    && var row := w.conns[conn].rows[ack.common.sequence];
    && Current(w, conn, row, ack, env)
    && w.sessions[row.subjectId].paramsRevision < row.body.value.paramsRevision
  }

  function Effected(s: Session, body: Command): Session {
    s.(effective := body.params, paramsRevision := body.paramsRevision)
  }

  function AckIn(w: World, conn: nat, ack: Ack, env: Env): World
    requires conn in w.conns
  {
    var c := w.conns[conn];
    var row := if Publishes(w, conn, ack, env) then Some(c.rows[ack.common.sequence]) else None;
    w.(conns := w.conns[conn := Acknowledge(c, ack, env.ring, env.transport)],
       sessions := if row.Some?
                   then w.sessions[row.value.subjectId :=
                                     Effected(w.sessions[row.value.subjectId], row.value.body.value)]
                   else w.sessions)
  }
}

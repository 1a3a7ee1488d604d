/** The session and attempt rows, written step by step inside the transactions
    that commit or acknowledge a command. */
module SessionStore {
  import opened Wrappers
  import opened Journal
  import opened Sessions

  class Rows {
    var sessions: map<nat, Session>
    var attempts: map<AttemptKey, Attempt>

    constructor ()
      ensures sessions == map[] && attempts == map[]
    {
      sessions, attempts := map[], map[];
    }

    ghost predicate Is(w: World)
      reads this
    {
      sessions == w.sessions && attempts == w.attempts
    }

    /** Whether the attempt is open on this connection. */
    method LockAttempt(conn: nat, key: AttemptKey, attemptId: nat) returns (here: bool)
      ensures here <==> key in attempts && attempts[key].conn == conn && attempts[key].attemptId == attemptId
                        && (attempts[key].state.Opening? || attempts[key].state.Running?)
    {
      if key !in attempts {
        return false;
      }
      var attempt := attempts[key];
      here := attempt.conn == conn && attempt.attemptId == attemptId
              && (attempt.state.Opening? || attempt.state.Running?);
    }

    /** The upsert keeps the owner of a row it takes over; a second attempt row
        for the generation rolls it back. */
    method OpenSession(conn: nat, draft: Draft, ctx: Context, ghost w: World) returns (opens: bool)
      requires Is(w) && draft.subject.SessionSubject?
      modifies this
      ensures opens <==> Opened(w, conn, draft, ctx).Some?
      ensures Is(if opens then Opened(w, conn, draft, ctx).value else w)
    {
      var sid, generation := draft.subject.sessionId, draft.subject.generation;
      var before := sessions;
      if sid in sessions {
        var entity := sessions[sid];
        if entity.user != draft.account || entity.browserOwner != ctx.browserOwner
           || entity.generation > generation {
          return false;
        }
        sessions := sessions[sid := entity.(model := draft.model, effective := draft.params, desired := draft.params,
                                            paramsRevision := 1, desiredRevision := 1, state := Assigning,
                                            generation := generation)];
      } else {
        sessions := sessions[sid := Session(draft.account, ctx.authSession, ctx.browserOwner, draft.model, Assigning,
                                            generation, draft.params, 1, draft.params, 1)];
      }
      var key := AttemptKey(sid, generation);
      if key in attempts {
        sessions := before;
        return false;
      }
      attempts := attempts[key := Attempt(conn, draft.subject.attemptId, Opening,
                                          Some(Range(draft.account, true)))];
      opens := true;
    }

    /** The compare-and-set of the desired parameters. */
    method UpdateSession(conn: nat, draft: Draft, ctx: Context, env: Env, ghost w: World) returns (updated: bool)
      requires Is(w) && draft.subject.SessionSubject?
      modifies this`sessions
      ensures updated <==> Updated(w, conn, draft, ctx, env).Some?
      ensures Is(if updated then Updated(w, conn, draft, ctx, env).value else w)
    {
      var revision := ctx.baseRevision + 1;
      if ctx.baseRevision < 1 || revision >= MAX_SEQUENCE || draft.paramsRevision != revision {
        return false;
      }
      var sid := draft.subject.sessionId;
      if sid !in sessions {
        return false;
      }
      var entity := sessions[sid];
      var here := LockAttempt(conn, AttemptKey(sid, draft.subject.generation), draft.subject.attemptId);
      if entity.generation != draft.subject.generation || entity.user != draft.account
         || entity.authSession != ctx.authSession || entity.browserOwner != ctx.browserOwner
         || Binding(entity.user, entity.authSession) !in env.live || entity.model != draft.model
         || entity.desiredRevision != ctx.baseRevision || !here {
        return false;
      }
      sessions := sessions[sid := entity.(desired := draft.params, desiredRevision := revision)];
      updated := true;
    }

    /** A release to idle, or a terminal close while nothing is pending. */
    method CloseSession(conn: nat, draft: Draft, ctx: Context, env: Env, pending: bool, ghost w: World)
      returns (closed: bool)
      requires Is(w) && draft.subject.SessionSubject?
      modifies this`sessions
      ensures closed <==> Closed(w, conn, draft, ctx, env, pending).Some?
      ensures Is(if closed then Closed(w, conn, draft, ctx, env, pending).value else w)
    {
      var sid := draft.subject.sessionId;
      if sid !in sessions {
        return false;
      }
      var entity := sessions[sid];
      var here := LockAttempt(conn, AttemptKey(sid, draft.subject.generation), draft.subject.attemptId);
      if entity.generation != draft.subject.generation || entity.user != draft.account || !entity.state.Live?
         || entity.browserOwner != env.transport || Binding(entity.user, entity.authSession) !in env.live || !here {
        return false;
      }
      if ctx.terminal && pending {
        return false;
      }
      sessions := sessions[sid := entity.(state := if ctx.terminal then Ending else Idle)];
      closed := true;
    }

    /** An accepted update takes effect when its session, attempt and range are
        still the ones it was built for and its revision is newer. */
    method TakeEffect(conn: nat, row: Row, ack: Ack, env: Env, ghost w: World) returns (published: bool)
      requires Is(w) && conn in w.conns && Records(w.conns[conn], ack, env.ring, env.transport)
      requires row == w.conns[conn].rows[ack.common.sequence]
      modifies this`sessions
      ensures published <==> Publishes(w, conn, ack, env)
      ensures Is(AckIn(w, conn, ack, env))
    {
      if !row.state.Pending? || row.account.None? || row.body.None? || !Readable(row, env.ring)
         || !ack.status.Accepted? || !row.kind.UpdateSession? {
        return false;
      }
      var command := row.body.value;
      var key := AttemptKey(row.subjectId, row.subjectSequence);
      if row.subjectId !in sessions || key !in attempts || attempts[key].range.None?
         || !command.identity.subject.SessionSubject? {
        return false;
      }
      var entity, attempt := sessions[row.subjectId], attempts[key];
      if entity.user != row.account.value || entity.generation != row.subjectSequence
         || entity.model != command.model || !(entity.state.Live? || entity.state.Idle?)
         || entity.browserOwner != env.transport || Binding(row.account.value, entity.authSession) !in env.live
         || entity.paramsRevision >= command.paramsRevision {
        return false;
      }
      if attempt.conn != conn || attempt.attemptId != command.identity.subject.attemptId || !attempt.state.Running?
         || attempt.range.value != Range(row.account.value, true) {
        return false;
      }
      sessions := sessions[row.subjectId := entity.(effective := command.params,
                                                    paramsRevision := command.paramsRevision)];
      published := true;
    }
  }
}

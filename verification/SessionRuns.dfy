/** Whole runs over sessions and journals, with a record of which committed
    update named which revision and what was published. */
module SessionRuns {
  import opened Wrappers
  import opened Journal
  import opened Sessions
  import opened AckOrder

  datatype Revision = Revision(session: nat, generation: nat, number: nat)

  datatype Slot = Slot(conn: nat, sequence: nat)

  datatype Event =
    | Connect(conn: nat, owner: nat)
    | Send(conn: nat, draft: Draft, ctx: Context, env: Env, seen: Seen, jobCurrent: bool)
    | Receive(conn: nat, ack: Ack, env: Env)
    | Wipe(conn: nat, selected: set<nat>, fence: bool)
    | Report(conn: nat, sequence: nat)
    | Hangup(conn: nat)
    | SessionMoves(session: nat, state: SessionState)
    | AttemptMoves(key: AttemptKey, attemptState: AttemptState, range: Option<Range>)

  datatype History = History(
    world: World,
    named: map<Revision, nat>,      // the parameter set a revision stands for
    updates: map<Slot, Revision>,   // every committed update_session
    origin: map<Revision, Slot>,    // the committed update behind a revision
    published: seq<Slot>)

  const START := History(World(map[], map[], map[]), map[], map[], map[], [])

  predicate PendingFor(w: World, session: nat, generation: nat) {
    exists c | c in w.conns :: exists k | k in w.conns[c].rows ::
      w.conns[c].rows[k].state == Pending && w.conns[c].rows[k].subjectId == session
      && w.conns[c].rows[k].subjectSequence == generation
  }

  function Sent(h: History, e: Event): History
    requires e.Send?
  {
    var w, conn, draft := h.world, e.conn, e.draft;
    var pending := BlocksClose(h, e);
    if conn !in w.conns || !Commits(w, conn, draft, e.ctx, e.env, e.seen, pending, e.jobCurrent) then h
    else
      var w' := CommitIn(w, conn, draft, e.ctx, e.env, e.seen, pending, e.jobCurrent);
      var slot := Slot(conn, w.conns[conn].next);
      match draft.kind
      case OpenSession =>
        h.(world := w',
           named := h.named[Revision(draft.subject.sessionId, draft.subject.generation, 1) := draft.params])
      case UpdateSession =>
        var r := Revision(draft.subject.sessionId, draft.subject.generation, draft.paramsRevision);
        h.(world := w', named := h.named[r := draft.params], updates := h.updates[slot := r],
           origin := h.origin[r := slot])
      case _ => h.(world := w')
  }

  function Received(h: History, e: Event): History
    requires e.Receive?
  {
    if e.conn !in h.world.conns then h
    else
      h.(world := AckIn(h.world, e.conn, e.ack, e.env),
         published := h.published + if Publishes(h.world, e.conn, e.ack, e.env)
                                    then [Slot(e.conn, e.ack.common.sequence)] else [])
  }

  function WithConnection(h: History, conn: nat, c: Connection): History {
    h.(world := h.world.(conns := h.world.conns[conn := c]))
  }

  function Next(h: History, e: Event): History {
    var w := h.world;
    match e
    case Connect(conn, owner) => if conn in w.conns then h else WithConnection(h, conn, NewConnection(owner))
    case Send(_, _, _, _, _, _) => Sent(h, e)
    case Receive(_, _, _) => Received(h, e)
    case Wipe(conn, selected, fence) =>
      if conn in w.conns then WithConnection(h, conn, Erase(w.conns[conn], selected, fence)) else h
    case Report(conn, k) =>
      if conn in w.conns then WithConnection(h, conn, EraseReported(w.conns[conn], k)) else h
    case Hangup(conn) =>
      if conn in w.conns then WithConnection(h, conn, w.conns[conn].(closed := true)) else h
    case SessionMoves(sid, state) =>
      if sid in w.sessions
      then h.(world := w.(sessions := w.sessions[sid := w.sessions[sid].(state := state)])) else h
    case AttemptMoves(key, state, range) =>
      if key in w.attempts
      then h.(world := w.(attempts := w.attempts[key := w.attempts[key].(state := state, range := range)])) else h
  }

  function Run(h: History, events: seq<Event>): History
    decreases |events|
  {
    if events == [] then h else Next(Run(h, events[..|events| - 1]), events[|events| - 1])
  }

  // ----- invariants -----

  /** Both sides of a session hold the parameters of their own revision, and the
      revisions named for its generation are exactly 1 .. desired_revision. */
  ghost predicate Backed(sid: nat, s: Session, named: map<Revision, nat>) {
    && 1 <= s.paramsRevision <= s.desiredRevision
    && (forall n: nat :: Revision(sid, s.generation, n) in named <==> 1 <= n <= s.desiredRevision)
    && named[Revision(sid, s.generation, s.paramsRevision)] == s.effective
    && named[Revision(sid, s.generation, s.desiredRevision)] == s.desired
  }

  ghost predicate AllBacked(sessions: map<nat, Session>, named: map<Revision, nat>) {
    && (forall sid | sid in sessions :: Backed(sid, sessions[sid], named))
    && (forall r | r in named :: r.session in sessions && r.generation <= sessions[r.session].generation)
  }

  ghost predicate AttemptsFit(sessions: map<nat, Session>, attempts: map<AttemptKey, Attempt>) {
    && (forall sid | sid in sessions :: AttemptKey(sid, sessions[sid].generation) in attempts)
    && (forall a | a in attempts :: a.session in sessions && a.generation <= sessions[a.session].generation)
  }

  predicate RowNamed(row: Row, named: map<Revision, nat>) {
    row.state == Pending && row.kind == UpdateSession && row.body.Some? ==>
      var r := Revision(row.subjectId, row.subjectSequence, row.body.value.paramsRevision);
      r in named && named[r] == row.body.value.params
  }

  ghost predicate RowsNamed(conns: map<nat, Connection>, named: map<Revision, nat>) {
    forall c, k | c in conns && k in conns[c].rows :: RowNamed(conns[c].rows[k], named)
  }

  /** Each revision above the first is backed by exactly one committed update. */
  ghost predicate Origins(conns: map<nat, Connection>, named: map<Revision, nat>, updates: map<Slot, Revision>,
                          origin: map<Revision, Slot>) {
    && (forall r | r in named && r.number >= 2 :: r in origin)
    && (forall r | r in origin :: r in named && r.number >= 2 && origin[r] in updates && updates[origin[r]] == r)
    && (forall u | u in updates :: updates[u] in origin && origin[updates[u]] == u)
    && (forall u | u in updates :: u.conn in conns && u.sequence < conns[u.conn].next)
  }

  predicate NoRepeats(s: seq<Slot>) {
    forall i, j | 0 <= i < j < |s| :: s[i] != s[j]
  }

  predicate Done(conns: map<nat, Connection>, u: Slot) {
    && u.conn in conns && u.sequence < conns[u.conn].next
    && (u.sequence in conns[u.conn].rows ==> conns[u.conn].rows[u.sequence].state != Pending)
  }

  predicate PublishedOnce(conns: map<nat, Connection>, published: seq<Slot>) {
    NoRepeats(published) && forall u | u in published :: Done(conns, u)
  }

  ghost predicate AllValid(conns: map<nat, Connection>) {
    forall c | c in conns :: Valid(conns[c])
  }

  /** Everything but the journals' own validity. */
  ghost predicate Names(h: History) {
    && AllBacked(h.world.sessions, h.named)
    && AttemptsFit(h.world.sessions, h.world.attempts)
    && RowsNamed(h.world.conns, h.named)
    && Origins(h.world.conns, h.named, h.updates, h.origin)
    && PublishedOnce(h.world.conns, h.published)
  }

  ghost predicate Inv(h: History) {
    AllValid(h.world.conns) && Names(h)
  }

  // ----- connections that only lose pending rows -----

  lemma ShrinkKeepsNames(h: History, conn: nat, c': Connection)
    requires Names(h) && conn in h.world.conns
    requires Shrinks(h.world.conns[conn], c') && c'.next == h.world.conns[conn].next
    ensures Names(WithConnection(h, conn, c'))
  {
    var conns := h.world.conns;
    var conns' := conns[conn := c'];
    forall u | u in h.published
      ensures Done(conns', u)
    {
      assert Done(conns, u);
    }
  }

  lemma ShrinkKeepsInv(h: History, conn: nat, c': Connection)
    requires Inv(h) && conn in h.world.conns
    requires Valid(c') && Shrinks(h.world.conns[conn], c') && c'.next == h.world.conns[conn].next
    ensures Inv(WithConnection(h, conn, c'))
  {
    ShrinkKeepsNames(h, conn, c');
  }

  lemma EraseShrinks(c: Connection, selected: set<nat>)
    ensures Shrinks(c, c.(rows := EraseRows(c.rows, selected)))
  {
  }

  lemma WipeKeepsInv(h: History, conn: nat, selected: set<nat>, fence: bool)
    requires Inv(h)
    ensures Inv(Next(h, Wipe(conn, selected, fence)))
  {
    if conn in h.world.conns {
      var c := h.world.conns[conn];
      EraseKeeps(c, selected, fence);
      EraseShrinks(c, selected);
      ShrinkKeepsInv(h, conn, Erase(c, selected, fence));
    }
  }

  lemma ReportKeepsInv(h: History, conn: nat, k: nat)
    requires Inv(h)
    ensures Inv(Next(h, Report(conn, k)))
  {
    if conn in h.world.conns {
      var c := h.world.conns[conn];
      EraseRowsKeeps(c, {k});
      EraseShrinks(c, {k});
      ShrinkKeepsInv(h, conn, EraseReported(c, k));
    }
  }

  lemma HangupKeepsInv(h: History, conn: nat)
    requires Inv(h)
    ensures Inv(Next(h, Hangup(conn)))
  {
    if conn in h.world.conns {
      ShrinkKeepsInv(h, conn, h.world.conns[conn].(closed := true));
    }
  }

  lemma NewIsValid(owner: nat)
    ensures Valid(NewConnection(owner))
  {
  }

  lemma ConnectKeepsInv(h: History, conn: nat, owner: nat)
    requires Inv(h)
    ensures Inv(Next(h, Connect(conn, owner)))
  {
    if conn !in h.world.conns {
      NewIsValid(owner);
      MoreConnections(h, conn, NewConnection(owner));
    }
  }

  lemma MoreConnections(h: History, conn: nat, c: Connection)
    requires Names(h) && conn !in h.world.conns && c.rows == map[]
    ensures Names(WithConnection(h, conn, c))
  {
    var conns' := h.world.conns[conn := c];
    forall u | u in h.published
      ensures Done(conns', u)
    {
      assert Done(h.world.conns, u);
    }
    assert Origins(conns', h.named, h.updates, h.origin);
  }

  // ----- acknowledgements -----

  lemma GrantKeepsBacked(sessions: map<nat, Session>, named: map<Revision, nat>, wish: Option<Row>)
    requires AllBacked(sessions, named)
    requires wish.Some? ==>
      wish.value.subjectId in sessions && wish.value.subjectSequence == sessions[wish.value.subjectId].generation
      && wish.value.state == Pending && wish.value.kind == UpdateSession && wish.value.body.Some?
      && RowNamed(wish.value, named)
    ensures AllBacked(Granted(sessions, wish), named)
  {
    if wish.Some? {
      var sid := wish.value.subjectId;
      assert Backed(sid, sessions[sid], named);
      assert Backed(sid, Granted(sessions, wish)[sid], named);
    }
  }

  lemma GrantKeepsAttempts(sessions: map<nat, Session>, attempts: map<AttemptKey, Attempt>, wish: Option<Row>)
    requires AttemptsFit(sessions, attempts)
    ensures AttemptsFit(Granted(sessions, wish), attempts)
  {
  }

  lemma WishIsNamed(h: History, x: Item, env: Env)
    requires Inv(h) && x.conn in h.world.conns && Wish(h.world, x, env).Some?
    ensures var row := Wish(h.world, x, env).value;
            && row.subjectId in h.world.sessions
            && row.subjectSequence == h.world.sessions[row.subjectId].generation
            && row.state == Pending && row.kind == UpdateSession && row.body.Some?
            && RowNamed(row, h.named)
  {
  }

  lemma PublishOnce(conns: map<nat, Connection>, conns': map<nat, Connection>, published: seq<Slot>, u: Slot)
    requires PublishedOnce(conns, published) && !Done(conns, u) && Done(conns', u)
    requires forall v | Done(conns, v) :: Done(conns', v)
    ensures PublishedOnce(conns', published + [u])
  {
  }

  lemma AckedIsDone(c: Connection, a: Ack, ring: set<nat>, t: nat)
    requires Valid(c) && Changes(c, a, ring, t)
    ensures a.common.sequence < c.next
    ensures var c' := Acknowledge(c, a, ring, t);
            c'.next == c.next
            && (a.common.sequence in c'.rows ==> c'.rows[a.common.sequence].state != Pending)
  {
    var m := Mark(c, a, ring, t);
    MarkKeeps(c, a, ring, t);
    SettleKeeps(m);
    AckRowFits(a.common.sequence, c.rows[a.common.sequence], a, ring);
  }

  lemma AckKeepsNext(c: Connection, a: Ack, ring: set<nat>, t: nat)
    requires Valid(c)
    ensures Acknowledge(c, a, ring, t).next == c.next
  {
    if Records(c, a, ring, t) {
      MarkKeeps(c, a, ring, t);
      SettleKeeps(Mark(c, a, ring, t));
    }
  }

  lemma ReceiveConnKeepsInv(h: History, conn: nat, c': Connection, wish: Option<Row>)
    requires Inv(h) && conn in h.world.conns
    requires Valid(c') && Shrinks(h.world.conns[conn], c') && c'.next == h.world.conns[conn].next
    requires wish.Some? ==>
      wish.value.subjectId in h.world.sessions
      && wish.value.subjectSequence == h.world.sessions[wish.value.subjectId].generation
      && wish.value.state == Pending && wish.value.kind == UpdateSession && wish.value.body.Some?
      && RowNamed(wish.value, h.named)
    ensures Inv(h.(world := h.world.(conns := h.world.conns[conn := c'],
                                     sessions := Granted(h.world.sessions, wish))))
  {
    ShrinkKeepsInv(h, conn, c');
    GrantKeepsBacked(h.world.sessions, h.named, wish);
    GrantKeepsAttempts(h.world.sessions, h.world.attempts, wish);
  }

  lemma ReceivedWorldKeepsInv(h: History, conn: nat, ack: Ack, env: Env)
    requires Inv(h) && conn in h.world.conns
    ensures Inv(h.(world := AckIn(h.world, conn, ack, env)))
  {
    var x := Item(conn, ack);
    var wish := Wish(h.world, x, env);
    AckShape(h.world, x, env);
    AckShrinks(h.world.conns[conn], ack, env.ring, env.transport);
    AckKeepsNext(h.world.conns[conn], ack, env.ring, env.transport);
    if wish.Some? {
      WishIsNamed(h, x, env);
    }
    ReceiveConnKeepsInv(h, conn, Acknowledge(h.world.conns[conn], ack, env.ring, env.transport), wish);
  }

  lemma PublishedIsPending(w: World, conn: nat, ack: Ack, env: Env)
    requires conn in w.conns && Publishes(w, conn, ack, env)
    ensures ack.common.sequence in w.conns[conn].rows
    ensures w.conns[conn].rows[ack.common.sequence].state == Pending
  {
  }

  lemma ReceivedIsPublishedOnce(h: History, conn: nat, ack: Ack, env: Env)
    requires Inv(h) && conn in h.world.conns && Publishes(h.world, conn, ack, env)
    ensures PublishedOnce(AckIn(h.world, conn, ack, env).conns, h.published + [Slot(conn, ack.common.sequence)])
  {
    var c := h.world.conns[conn];
    PublishedIsPending(h.world, conn, ack, env);
    PublishingChanges(h.world, Item(conn, ack), env);
    AckShape(h.world, Item(conn, ack), env);
    AckShrinks(c, ack, env.ring, env.transport);
    AckedIsDone(c, ack, env.ring, env.transport);
    OneMorePublished(h.world.conns, h.published, conn, Acknowledge(c, ack, env.ring, env.transport),
                     ack.common.sequence);
  }

  lemma ReceiveKeepsInv(h: History, conn: nat, ack: Ack, env: Env)
    requires Inv(h)
    ensures Inv(Next(h, Receive(conn, ack, env)))
  {
    if conn in h.world.conns {
      ReceivedWorldKeepsInv(h, conn, ack, env);
      if Publishes(h.world, conn, ack, env) {
        ReceivedIsPublishedOnce(h, conn, ack, env);
      }
    }
  }

  lemma OneMorePublished(conns: map<nat, Connection>, published: seq<Slot>, conn: nat, c': Connection, k: nat)
    requires conn in conns && PublishedOnce(conns, published)
    requires Shrinks(conns[conn], c') && c'.next == conns[conn].next && k < c'.next
    requires k in conns[conn].rows && conns[conn].rows[k].state == Pending
    requires k in c'.rows ==> c'.rows[k].state != Pending
    ensures PublishedOnce(conns[conn := c'], published + [Slot(conn, k)])
  {
    DoneStays(conns, conn, c');
    PublishOnce(conns, conns[conn := c'], published, Slot(conn, k));
  }

  lemma DoneStays(conns: map<nat, Connection>, conn: nat, c': Connection)
    requires conn in conns && Shrinks(conns[conn], c') && c'.next == conns[conn].next
    ensures forall v | Done(conns, v) :: Done(conns[conn := c'], v)
  {
  }

  // ----- commits -----

  function Appended(c: Connection, row: Row): Connection {
    c.(next := c.next + 1, rows := c.rows[c.next := row])
  }

  /** The journal half of a commit: one more pending row at `next`. */
  lemma AppendKeeps(h: History, conn: nat, row: Row, named: map<Revision, nat>)
    requires Names(h) && conn in h.world.conns
    requires forall r | r in h.named :: r in named && named[r] == h.named[r]
    requires RowNamed(row, named)
    ensures var conns' := h.world.conns[conn := Appended(h.world.conns[conn], row)];
            RowsNamed(conns', named) && PublishedOnce(conns', h.published)
  {
    var c := h.world.conns[conn];
    var conns' := h.world.conns[conn := Appended(c, row)];
    forall d, k | d in conns' && k in conns'[d].rows
      ensures RowNamed(conns'[d].rows[k], named)
    {
      if !(d == conn && k == c.next) {
        assert RowNamed(h.world.conns[d].rows[k], h.named);
      }
    }
    forall u | u in h.published
      ensures Done(conns', u)
    {
      assert Done(h.world.conns, u);
    }
  }

  /** An open never reuses a generation: its attempt row would collide. */
  lemma OpenIsNewGeneration(w: World, conn: nat, draft: Draft, ctx: Context, named: map<Revision, nat>, n: nat)
    requires draft.subject.SessionSubject? && Opened(w, conn, draft, ctx).Some?
    requires AllBacked(w.sessions, named) && AttemptsFit(w.sessions, w.attempts)
    ensures Revision(draft.subject.sessionId, draft.subject.generation, n) !in named
  {
  }

  lemma OpenNames(w: World, conn: nat, draft: Draft, ctx: Context, named: map<Revision, nat>)
    requires draft.subject.SessionSubject? && Opened(w, conn, draft, ctx).Some?
    requires AllBacked(w.sessions, named) && AttemptsFit(w.sessions, w.attempts)
    ensures var w' := Opened(w, conn, draft, ctx).value;
            var r := Revision(draft.subject.sessionId, draft.subject.generation, 1);
            && r !in named && w'.conns == w.conns
            && AllBacked(w'.sessions, named[r := draft.params])
            && AttemptsFit(w'.sessions, w'.attempts)
  {
    var w' := Opened(w, conn, draft, ctx).value;
    var sid, gen := draft.subject.sessionId, draft.subject.generation;
    var r := Revision(sid, gen, 1);
    forall n: nat
      ensures Revision(sid, gen, n) !in named
    {
      OpenIsNewGeneration(w, conn, draft, ctx, named, n);
    }
    assert Backed(sid, w'.sessions[sid], named[r := draft.params]);
    forall s | s in w'.sessions && s != sid
      ensures Backed(s, w'.sessions[s], named[r := draft.params])
    {
      assert Backed(s, w.sessions[s], named);
    }
  }

  lemma UpdateNames(w: World, conn: nat, draft: Draft, ctx: Context, env: Env, named: map<Revision, nat>)
    requires draft.subject.SessionSubject? && Updated(w, conn, draft, ctx, env).Some?
    requires AllBacked(w.sessions, named) && AttemptsFit(w.sessions, w.attempts)
    ensures var w' := Updated(w, conn, draft, ctx, env).value;
            var r := Revision(draft.subject.sessionId, draft.subject.generation, draft.paramsRevision);
            && r !in named && r.number >= 2 && w'.conns == w.conns
            && AllBacked(w'.sessions, named[r := draft.params])
            && AttemptsFit(w'.sessions, w'.attempts)
  {
    var w' := Updated(w, conn, draft, ctx, env).value;
    var sid := draft.subject.sessionId;
    var r := Revision(sid, draft.subject.generation, draft.paramsRevision);
    assert Backed(sid, w.sessions[sid], named);
    assert Backed(sid, w'.sessions[sid], named[r := draft.params]);
    forall s | s in w'.sessions && s != sid
      ensures Backed(s, w'.sessions[s], named[r := draft.params])
    {
      assert Backed(s, w.sessions[s], named);
    }
  }

  lemma CloseKeeps(w: World, conn: nat, draft: Draft, ctx: Context, env: Env, pending: bool,
                   named: map<Revision, nat>)
    requires draft.subject.SessionSubject? && Closed(w, conn, draft, ctx, env, pending).Some?
    requires AllBacked(w.sessions, named) && AttemptsFit(w.sessions, w.attempts)
    ensures var w' := Closed(w, conn, draft, ctx, env, pending).value;
            w'.conns == w.conns && AllBacked(w'.sessions, named) && AttemptsFit(w'.sessions, w'.attempts)
  {
    var sid := draft.subject.sessionId;
    MovedSessionIsBacked(w.sessions, w.attempts, named, sid,
                         if ctx.terminal then SessionState.Ending else SessionState.Idle);
  }

  /** A session's state is no part of what backs its parameters. */
  lemma MovedSessionIsBacked(sessions: map<nat, Session>, attempts: map<AttemptKey, Attempt>,
                             named: map<Revision, nat>, sid: nat, state: SessionState)
    requires AllBacked(sessions, named) && AttemptsFit(sessions, attempts) && sid in sessions
    ensures AllBacked(sessions[sid := sessions[sid].(state := state)], named)
    ensures AttemptsFit(sessions[sid := sessions[sid].(state := state)], attempts)
  {
    assert Backed(sid, sessions[sid], named);
  }

  lemma OriginsStay(conns: map<nat, Connection>, named: map<Revision, nat>, named': map<Revision, nat>,
                    updates: map<Slot, Revision>, origin: map<Revision, Slot>, conn: nat, c': Connection)
    requires Origins(conns, named, updates, origin)
    requires forall r | r in named :: r in named'
    requires forall r | r in named' && r.number >= 2 :: r in named
    requires conn in conns && c'.next >= conns[conn].next
    ensures Origins(conns[conn := c'], named', updates, origin)
  {
  }

  lemma OriginsGrow(conns: map<nat, Connection>, named: map<Revision, nat>, updates: map<Slot, Revision>,
                    origin: map<Revision, Slot>, r: Revision, params: nat, conn: nat, c': Connection)
    requires Origins(conns, named, updates, origin) && r !in named && r.number >= 2
    requires conn in conns && c'.next == conns[conn].next + 1
    ensures var u := Slot(conn, conns[conn].next);
            Origins(conns[conn := c'], named[r := params], updates[u := r], origin[r := u])
  {
  }

  /** Gluing the subject half and the journal half of a commit together. */
  lemma GlueCommit(h: History, w': World, conn: nat, row: Row, named: map<Revision, nat>)
    requires Names(h) && conn in h.world.conns
    requires AllBacked(w'.sessions, named) && AttemptsFit(w'.sessions, w'.attempts)
    requires forall r | r in h.named :: r in named && named[r] == h.named[r]
    requires forall r | r in named && r.number >= 2 :: r in h.named
    requires RowNamed(row, named)
    ensures Names(h.(world := w'.(conns := h.world.conns[conn := Appended(h.world.conns[conn], row)]),
                     named := named))
  {
    AppendKeeps(h, conn, row, named);
    OriginsStay(h.world.conns, h.named, named, h.updates, h.origin, conn, Appended(h.world.conns[conn], row));
  }

  lemma GlueUpdate(h: History, w': World, conn: nat, row: Row, r: Revision, params: nat)
    requires Names(h) && conn in h.world.conns && r !in h.named && r.number >= 2
    requires AllBacked(w'.sessions, h.named[r := params]) && AttemptsFit(w'.sessions, w'.attempts)
    requires RowNamed(row, h.named[r := params])
    ensures var u := Slot(conn, h.world.conns[conn].next);
            Names(History(w'.(conns := h.world.conns[conn := Appended(h.world.conns[conn], row)]),
                          h.named[r := params], h.updates[u := r], h.origin[r := u], h.published))
  {
    AppendKeeps(h, conn, row, h.named[r := params]);
    OriginsGrow(h.world.conns, h.named, h.updates, h.origin, r, params, conn,
                Appended(h.world.conns[conn], row));
  }

  predicate Goes(h: History, e: Event) {
    e.Send? && e.conn in h.world.conns
    && Commits(h.world, e.conn, e.draft, e.ctx, e.env, e.seen, BlocksClose(h, e), e.jobCurrent)
  }

  predicate BlocksClose(h: History, e: Event)
    requires e.Send?
  {
    PendingFor(h.world, SubjectId(e.draft.subject), SubjectSequence(e.draft.subject))
  }

  function FoundBy(h: History, e: Event): Seen
    requires e.Send?
  {
    Found(h.world, e.conn, e.draft, e.ctx, e.env, e.seen, BlocksClose(h, e), e.jobCurrent)
  }

  function NewRow(h: History, e: Event): Row
    requires e.Send? && e.conn in h.world.conns && e.env.writeKey.Some?
  {
    PendingRow(e.draft, h.world.conns[e.conn].next, e.env.writeKey.value)
  }

  /** A commit that happens gives its connection exactly one pending row. */
  lemma SentJournal(h: History, e: Event)
    requires AllValid(h.world.conns) && e.Send? && e.conn in h.world.conns
    requires Commit(h.world.conns[e.conn], e.draft, FoundBy(h, e), e.env.writeKey).Ok?
    ensures e.env.writeKey.Some?
    ensures var c' := Commit(h.world.conns[e.conn], e.draft, FoundBy(h, e), e.env.writeKey).value;
            Valid(c') && c' == Appended(h.world.conns[e.conn], NewRow(h, e))
  {
    CommitKeeps(h.world.conns[e.conn], e.draft, FoundBy(h, e), e.env.writeKey);
  }

  lemma NewRowNamed(h: History, e: Event, named: map<Revision, nat>)
    requires e.Send? && e.conn in h.world.conns && e.env.writeKey.Some?
    requires e.draft.kind == UpdateSession ==>
      (e.draft.subject.SessionSubject?
       && var r := Revision(e.draft.subject.sessionId, e.draft.subject.generation, e.draft.paramsRevision);
          r in named && named[r] == e.draft.params)
    ensures RowNamed(NewRow(h, e), named)
  {
  }

  lemma CommittedConnections(w: World, conn: nat, draft: Draft, ctx: Context, env: Env, seen: Seen,
                             pending: bool, jobCurrent: bool)
    requires conn in w.conns && Commits(w, conn, draft, ctx, env, seen, pending, jobCurrent)
    ensures var committed := Commit(w.conns[conn], draft, Found(w, conn, draft, ctx, env, seen, pending, jobCurrent),
                                    env.writeKey);
            && committed.Ok?
            && CommitIn(w, conn, draft, ctx, env, seen, pending, jobCurrent).conns
               == w.conns[conn := committed.value]
  {
  }

  lemma SentConnections(h: History, e: Event)
    requires Goes(h, e)
    ensures Commit(h.world.conns[e.conn], e.draft, FoundBy(h, e), e.env.writeKey).Ok?
    ensures Sent(h, e).world.conns
         == h.world.conns[e.conn := Commit(h.world.conns[e.conn], e.draft, FoundBy(h, e), e.env.writeKey).value]
  {
    CommittedConnections(h.world, e.conn, e.draft, e.ctx, e.env, e.seen, BlocksClose(h, e), e.jobCurrent);
    match e.draft.kind
    case OpenSession =>
    case UpdateSession =>
    case _ =>
  }

  lemma SendKeepsValid(h: History, e: Event)
    requires Inv(h) && e.Send?
    ensures AllValid(Sent(h, e).world.conns)
  {
    if Goes(h, e) {
      SentConnections(h, e);
      SentJournal(h, e);
      PutValid(h.world.conns, e.conn, Commit(h.world.conns[e.conn], e.draft, FoundBy(h, e), e.env.writeKey).value);
    } else {
      assert Sent(h, e) == h;
    }
  }

  lemma PutValid(conns: map<nat, Connection>, conn: nat, c: Connection)
    requires AllValid(conns) && Valid(c)
    ensures AllValid(conns[conn := c])
  {
  }

  lemma OpenShape(h: History, e: Event)
    requires AllValid(h.world.conns) && Goes(h, e) && e.draft.kind == OpenSession
    ensures e.draft.subject.SessionSubject? && Opened(h.world, e.conn, e.draft, e.ctx).Some?
    ensures e.env.writeKey.Some?
    ensures var r := Revision(e.draft.subject.sessionId, e.draft.subject.generation, 1);
            var w' := Opened(h.world, e.conn, e.draft, e.ctx).value;
            Sent(h, e) == h.(world := w'.(conns := h.world.conns[e.conn := Appended(h.world.conns[e.conn], NewRow(h, e))]),
                             named := h.named[r := e.draft.params])
  {
    SentJournal(h, e);
  }

  lemma OpenedNames(h: History, conn: nat, draft: Draft, ctx: Context, row: Row)
    requires Names(h) && conn in h.world.conns && draft.subject.SessionSubject?
    requires Opened(h.world, conn, draft, ctx).Some?
    requires RowNamed(row, h.named[Revision(draft.subject.sessionId, draft.subject.generation, 1) := draft.params])
    ensures var r := Revision(draft.subject.sessionId, draft.subject.generation, 1);
            var w' := Opened(h.world, conn, draft, ctx).value;
            Names(h.(world := w'.(conns := h.world.conns[conn := Appended(h.world.conns[conn], row)]),
                     named := h.named[r := draft.params]))
  {
    OpenNames(h.world, conn, draft, ctx, h.named);
    GlueCommit(h, Opened(h.world, conn, draft, ctx).value, conn, row,
               h.named[Revision(draft.subject.sessionId, draft.subject.generation, 1) := draft.params]);
  }

  lemma OpenKeepsNames(h: History, e: Event)
    requires Inv(h) && Goes(h, e) && e.draft.kind == OpenSession
    ensures Names(Sent(h, e))
  {
    OpenShape(h, e);
    NewRowNamed(h, e, h.named[Revision(e.draft.subject.sessionId, e.draft.subject.generation, 1) := e.draft.params]);
    OpenedNames(h, e.conn, e.draft, e.ctx, NewRow(h, e));
  }

  lemma CloseKeepsNames(h: History, e: Event)
    requires Inv(h) && Goes(h, e) && e.draft.kind == CloseSession
    ensures Names(Sent(h, e))
  {
    SentJournal(h, e);
    CloseKeeps(h.world, e.conn, e.draft, e.ctx, e.env, BlocksClose(h, e), h.named);
    NewRowNamed(h, e, h.named);
    GlueCommit(h, Closed(h.world, e.conn, e.draft, e.ctx, e.env, BlocksClose(h, e)).value, e.conn,
               NewRow(h, e), h.named);
  }

  lemma JobKeepsNames(h: History, e: Event)
    requires Inv(h) && Goes(h, e) && (e.draft.kind == DispatchJob || e.draft.kind == CancelJob)
    ensures Names(Sent(h, e))
  {
    SentJournal(h, e);
    NewRowNamed(h, e, h.named);
    GlueCommit(h, h.world, e.conn, NewRow(h, e), h.named);
  }

  lemma UpdateKeepsNames(h: History, e: Event)
    requires Inv(h) && Goes(h, e) && e.draft.kind == UpdateSession
    ensures Names(Sent(h, e))
  {
    SentJournal(h, e);
    var r := Revision(e.draft.subject.sessionId, e.draft.subject.generation, e.draft.paramsRevision);
    UpdateNames(h.world, e.conn, e.draft, e.ctx, e.env, h.named);
    NewRowNamed(h, e, h.named[r := e.draft.params]);
    GlueUpdate(h, Updated(h.world, e.conn, e.draft, e.ctx, e.env).value, e.conn, NewRow(h, e), r, e.draft.params);
  }

  lemma SendKeepsInv(h: History, e: Event)
    requires Inv(h) && e.Send?
    ensures Inv(Next(h, e))
  {
    SendKeepsValid(h, e);
    if Goes(h, e) {
      match e.draft.kind
      case OpenSession => OpenKeepsNames(h, e);
      case UpdateSession => UpdateKeepsNames(h, e);
      case CloseSession => CloseKeepsNames(h, e);
      case _ => JobKeepsNames(h, e);
    }
  }

  // ----- whole runs -----

  lemma SessionMoveKeepsInv(h: History, sid: nat, state: SessionState)
    requires Inv(h)
    ensures Inv(Next(h, SessionMoves(sid, state)))
  {
    if sid in h.world.sessions {
      var sessions' := h.world.sessions[sid := h.world.sessions[sid].(state := state)];
      forall s | s in sessions'
        ensures Backed(s, sessions'[s], h.named)
      {
        assert Backed(s, h.world.sessions[s], h.named);
      }
      assert AllBacked(sessions', h.named);
      assert AttemptsFit(sessions', h.world.attempts);
    }
  }

  lemma AttemptMoveKeepsInv(h: History, key: AttemptKey, state: AttemptState, range: Option<Range>)
    requires Inv(h)
    ensures Inv(Next(h, AttemptMoves(key, state, range)))
  {
    if key in h.world.attempts {
      var attempts' := h.world.attempts[key := h.world.attempts[key].(state := state, range := range)];
      assert AttemptsFit(h.world.sessions, attempts');
    }
  }

  lemma NextKeepsInv(h: History, e: Event)
    requires Inv(h)
    ensures Inv(Next(h, e))
  {
    match e
    case Connect(conn, owner) => ConnectKeepsInv(h, conn, owner);
    case Send(_, _, _, _, _, _) => SendKeepsInv(h, e);
    case Receive(conn, ack, env) => ReceiveKeepsInv(h, conn, ack, env);
    case Wipe(conn, selected, fence) => WipeKeepsInv(h, conn, selected, fence);
    case Report(conn, k) => ReportKeepsInv(h, conn, k);
    case Hangup(conn) => HangupKeepsInv(h, conn);
    case SessionMoves(sid, state) => SessionMoveKeepsInv(h, sid, state);
    case AttemptMoves(key, state, range) => AttemptMoveKeepsInv(h, key, state, range);
  }

  lemma {:induction false} RunKeepsInv(events: seq<Event>)
    ensures Inv(Run(START, events))
    decreases |events|
  {
    if events != [] {
      RunKeepsInv(events[..|events| - 1]);
      NextKeepsInv(Run(START, events[..|events| - 1]), events[|events| - 1]);
    }
  }

  /** In every reachable state, each revision of a session's generation up to
      desired_revision names one parameter set, each above the first has exactly
      one committed update behind it, and the two sides hold their own. */
  lemma RevisionsNameParameters(events: seq<Event>, sid: nat)
    requires sid in Run(START, events).world.sessions
    ensures var h := Run(START, events);
            var s := h.world.sessions[sid];
            && 1 <= s.paramsRevision <= s.desiredRevision
            && (forall n: nat | 1 <= n <= s.desiredRevision :: Revision(sid, s.generation, n) in h.named)
            && s.effective == h.named[Revision(sid, s.generation, s.paramsRevision)]
            && s.desired == h.named[Revision(sid, s.generation, s.desiredRevision)]
            && (s.paramsRevision == s.desiredRevision ==> s.effective == s.desired)
            && (forall n: nat | 2 <= n <= s.desiredRevision ::
                  exists u | u in h.updates :: OnlyUpdate(h.updates, u, Revision(sid, s.generation, n)))
  {
    RunKeepsInv(events);
    var h := Run(START, events);
    var s := h.world.sessions[sid];
    assert Backed(sid, s, h.named);
    forall n: nat | 2 <= n <= s.desiredRevision
      ensures exists u | u in h.updates :: OnlyUpdate(h.updates, u, Revision(sid, s.generation, n))
    {
      assert Revision(sid, s.generation, n) in h.named;
      HasOneUpdate(h.world.conns, h.named, h.updates, h.origin, Revision(sid, s.generation, n));
    }
  }

  predicate Extends(named: map<Revision, nat>, named': map<Revision, nat>) {
    forall r | r in named :: r in named' && named'[r] == named[r]
  }

  lemma OneMoreName(named: map<Revision, nat>, r: Revision, params: nat)
    requires r !in named
    ensures Extends(named, named[r := params])
  {
  }

  lemma OpenExtends(h: History, e: Event)
    requires Inv(h) && Goes(h, e) && e.draft.kind == OpenSession
    ensures Extends(h.named, Sent(h, e).named)
  {
    OpenShape(h, e);
    OpenIsNewGeneration(h.world, e.conn, e.draft, e.ctx, h.named, 1);
    OneMoreName(h.named, Revision(e.draft.subject.sessionId, e.draft.subject.generation, 1), e.draft.params);
  }

  lemma UpdateExtends(h: History, e: Event)
    requires Inv(h) && Goes(h, e) && e.draft.kind == UpdateSession
    ensures Extends(h.named, Sent(h, e).named)
  {
    UpdateNames(h.world, e.conn, e.draft, e.ctx, e.env, h.named);
    OneMoreName(h.named, Revision(e.draft.subject.sessionId, e.draft.subject.generation, e.draft.paramsRevision),
                e.draft.params);
  }

  lemma SameNames(h: History, e: Event)
    requires !e.Send? || !Goes(h, e) || (e.draft.kind != OpenSession && e.draft.kind != UpdateSession)
    ensures Next(h, e).named == h.named
  {
    match e
    case Send(_, _, _, _, _, _) =>
    case _ =>
  }

  lemma NextExtends(h: History, e: Event)
    requires Inv(h)
    ensures Extends(h.named, Next(h, e).named)
  {
    if e.Send? && Goes(h, e) && e.draft.kind == OpenSession {
      OpenExtends(h, e);
    } else if e.Send? && Goes(h, e) && e.draft.kind == UpdateSession {
      UpdateExtends(h, e);
    } else {
      SameNames(h, e);
    }
  }

  lemma {:induction false} NamesStand(events: seq<Event>, n: nat)
    requires n <= |events|
    ensures Extends(Run(START, events[..n]).named, Run(START, events).named)
    decreases |events|
  {
    if n == |events| {
      assert events[..n] == events;
    } else {
      var before := events[..|events| - 1];
      assert events[..n] == before[..n];
      NamesStand(before, n);
      RunKeepsInv(before);
      NextExtends(Run(START, before), events[|events| - 1]);
    }
  }

  /** Any two moments of a run, and either side of the session at each, show one
      parameter set for one revision of one generation. */
  lemma OneSetPerRevision(events: seq<Event>, i: nat, j: nat, sid: nat)
    requires i <= j <= |events|
    requires sid in Run(START, events[..i]).world.sessions && sid in Run(START, events[..j]).world.sessions
    ensures var s, t := Run(START, events[..i]).world.sessions[sid], Run(START, events[..j]).world.sessions[sid];
      s.generation == t.generation ==>
        && (s.paramsRevision == t.paramsRevision ==> s.effective == t.effective)
        && (s.desiredRevision == t.desiredRevision ==> s.desired == t.desired)
        && (s.desiredRevision == t.paramsRevision ==> s.desired == t.effective)
        && (s.paramsRevision == t.desiredRevision ==> s.effective == t.desired)
  {
    var h, g := Run(START, events[..i]), Run(START, events[..j]);
    assert events[..j][..i] == events[..i];
    NamesStand(events[..j], i);
    RunKeepsInv(events[..i]);
    RunKeepsInv(events[..j]);
    assert Backed(sid, h.world.sessions[sid], h.named) && Backed(sid, g.world.sessions[sid], g.named);
  }

  /** `u` is the one committed update that named revision `r`. */
  predicate OnlyUpdate(updates: map<Slot, Revision>, u: Slot, r: Revision) {
    u in updates && updates[u] == r && forall v | v in updates && updates[v] == r :: v == u
  }

  lemma HasOneUpdate(conns: map<nat, Connection>, named: map<Revision, nat>, updates: map<Slot, Revision>,
                     origin: map<Revision, Slot>, r: Revision)
    requires Origins(conns, named, updates, origin) && r in named && r.number >= 2
    ensures exists u | u in updates :: OnlyUpdate(updates, u, r)
  {
    assert r in origin;
    assert OnlyUpdate(updates, origin[r], r);
  }

  /** No command is ever published twice. */
  lemma EachCommandPublishesOnce(events: seq<Event>)
    ensures NoRepeats(Run(START, events).published)
  {
    RunKeepsInv(events);
  }

  /** Reachable worlds are the ones in which acknowledgements commute. */
  lemma ReachableWorldIsGood(events: seq<Event>)
    ensures Good(Run(START, events).world)
  {
    RunKeepsInv(events);
    var w := Run(START, events).world;
    var named := Run(START, events).named;
    forall c, k, d, m | PendingUpdate(w, c, k) && PendingUpdate(w, d, m)
      ensures Agree(w.conns[c].rows[k], w.conns[d].rows[m])
    {
      assert RowNamed(w.conns[c].rows[k], named) && RowNamed(w.conns[d].rows[m], named);
    }
  }

  /** After any run, any order and repetition of acknowledgements, one per
      command, ends the same. */
  lemma ReachableOrderDoesNotMatter(events: seq<Event>, xs: seq<Item>, ys: seq<Item>, env: Env)
    requires OnePerCommand(xs) && forall x :: x in xs <==> x in ys
    ensures AckAll(Run(START, events).world, xs, env) == AckAll(Run(START, events).world, ys, env)
  {
    ReachableWorldIsGood(events);
    OrderDoesNotMatter(Run(START, events).world, xs, ys, env);
  }

  /** Of two updates built on one revision, only the first commits. */
  lemma CompareAndSetIsLostOnce(w: World, conn: nat, draft: Draft, ctx: Context, env: Env, conn': nat,
                                draft': Draft, ctx': Context, env': Env)
    requires draft.subject.SessionSubject? && draft'.subject.SessionSubject?
    requires draft.subject.sessionId == draft'.subject.sessionId && ctx.baseRevision == ctx'.baseRevision
    requires Updated(w, conn, draft, ctx, env).Some?
    ensures Updated(Updated(w, conn, draft, ctx, env).value, conn', draft', ctx', env').None?
  {
  }
}

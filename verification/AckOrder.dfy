/** Acknowledgements commute and repeat harmlessly. */
module AckOrder {
  import opened Wrappers
  import opened Journal
  import opened Sessions
  import opened Folds

  // ----- on one connection -----

  lemma {:induction false} AdvanceFrom(rows: map<nat, Row>, floor: nat, f: nat, next: nat)
    requires floor <= f < next
    requires forall k | floor < k <= f :: k in rows && KnownAcknowledged(rows[k])
    ensures Advance(rows, floor, next) == Advance(rows, f, next)
    decreases f - floor
  {
    if floor < f {
      AdvanceFrom(rows, floor + 1, f, next);
    }
  }

  lemma {:induction false} AdvanceSame(rows: map<nat, Row>, rows': map<nat, Row>, floor: nat, next: nat)
    requires forall k: nat | k > floor :: (k in rows <==> k in rows') && (k in rows ==> rows[k] == rows'[k])
    ensures Advance(rows, floor, next) == Advance(rows', floor, next)
    decreases if floor < next then next - floor else 0
  {
    if floor + 1 < next {
      AdvanceSame(rows, rows', floor + 1, next);
    }
  }

  function Put(c: Connection, k: nat, row: Row): Connection {
    c.(rows := c.rows[k := row])
  }

  lemma PruneTwice(rows: map<nat, Row>, k: nat, row: Row, f: nat, g: nat)
    requires f <= g && f < k && k in rows
    ensures Prune(Prune(rows, f)[k := row], g) == Prune(rows[k := row], g)
    ensures f == g ==> Prune(rows, f)[k := row] == Prune(rows[k := row], g)
  {
  }

  /** Raising the floor before or after another row is acknowledged ends the same. */
  lemma SettleTwice(c: Connection, k: nat, row: Row)
    requires NearlyValid(c) && k in c.rows && !KnownAcknowledged(c.rows[k])
    ensures k in Settle(c).rows && Settle(c).rows[k] == c.rows[k]
    ensures Settle(Put(Settle(c), k, row)) == Settle(Put(c, k, row))
  {
    UnknownSurvives(c, k);
    SettlePut(c, k, row, Advance(c.rows, c.floor, c.next));
  }

  lemma SettlePut(c: Connection, k: nat, row: Row, f: nat)
    requires c.floor <= f < k && f < c.next && k in c.rows && f == Advance(c.rows, c.floor, c.next)
    ensures Settle(Put(Settle(c), k, row)) == Settle(Put(c, k, row))
  {
    if f > c.floor {
      var rows' := c.rows[k := row];
      var g := Advance(rows', f, c.next);
      AdvanceFrom(rows', c.floor, f, c.next);
      AdvanceSame(Prune(c.rows, f)[k := row], rows', f, c.next);
      PruneTwice(c.rows, k, row, f, g);
    }
  }

  /** An acknowledgement of an already acknowledged row changes nothing. */
  lemma RepeatIsNothing(c: Connection, a: Ack, ring: set<nat>, t: nat)
    requires Valid(c) && (a.common.sequence in c.rows ==> c.rows[a.common.sequence].state == Acknowledged)
    ensures Acknowledge(c, a, ring, t) == c
  {
    if Records(c, a, ring, t) {
      assert Mark(c, a, ring, t) == c;
      NothingToCatchUp(c);
    }
  }

  lemma AckTwice(c: Connection, a: Ack, ring: set<nat>, t: nat)
    requires Valid(c)
    ensures Acknowledge(Acknowledge(c, a, ring, t), a, ring, t) == Acknowledge(c, a, ring, t)
  {
    if Records(c, a, ring, t) {
      var m := Mark(c, a, ring, t);
      MarkKeeps(c, a, ring, t);
      SettleKeeps(m);
      AckRowFits(a.common.sequence, c.rows[a.common.sequence], a, ring);
      RepeatIsNothing(Settle(m), a, ring, t);
    }
  }

  predicate Changes(c: Connection, a: Ack, ring: set<nat>, t: nat) {
    Records(c, a, ring, t) && c.rows[a.common.sequence].state != Acknowledged
  }

  lemma UnchangedWithoutChange(c: Connection, a: Ack, ring: set<nat>, t: nat)
    requires Valid(c) && !Changes(c, a, ring, t)
    ensures Acknowledge(c, a, ring, t) == c
  {
    if Records(c, a, ring, t) {
      RepeatIsNothing(c, a, ring, t);
    }
  }

  /** Another row's acknowledgement neither enables nor disables this one. */
  lemma ChangesIndependently(c: Connection, a: Ack, b: Ack, ring: set<nat>, t: nat)
    requires Valid(c) && a.common.sequence != b.common.sequence
    ensures var c' := Acknowledge(c, b, ring, t);
            && Valid(c') && c'.transportOwner == c.transportOwner
            && (Changes(c', a, ring, t) <==> Changes(c, a, ring, t))
            && (Changes(c, a, ring, t) ==> c'.rows[a.common.sequence] == c.rows[a.common.sequence])
  {
    AcknowledgeKeeps(c, b, ring, t);
    if Records(c, b, ring, t) {
      OtherRowStays(c, b, ring, t, a.common.sequence);
    }
  }

  lemma MarkLeavesOthers(c: Connection, b: Ack, ring: set<nat>, t: nat, k: nat)
    requires Valid(c) && Records(c, b, ring, t) && k != b.common.sequence
    ensures var m := Mark(c, b, ring, t);
      && NearlyValid(m) && m.transportOwner == c.transportOwner
      && (k in m.rows <==> k in c.rows) && (k in c.rows ==> m.rows[k] == c.rows[k])
  {
    MarkKeeps(c, b, ring, t);
  }

  /** What is not yet acknowledged survives another row's acknowledgement. */
  lemma OtherRowStays(c: Connection, b: Ack, ring: set<nat>, t: nat, k: nat)
    requires Valid(c) && Records(c, b, ring, t) && k != b.common.sequence
    ensures var c' := Acknowledge(c, b, ring, t);
      && c'.transportOwner == c.transportOwner
      && (k in c.rows && c.rows[k].state != Acknowledged ==> k in c'.rows)
      && (k in c'.rows ==> k in c.rows && c'.rows[k] == c.rows[k])
  {
    MarkLeavesOthers(c, b, ring, t, k);
    SettleLeavesOthers(Mark(c, b, ring, t), k);
  }

  lemma AcksCommuteOnConnection(c: Connection, a: Ack, b: Ack, ring: set<nat>, t: nat)
    requires Valid(c) && a.common.sequence != b.common.sequence
    ensures Acknowledge(Acknowledge(c, a, ring, t), b, ring, t)
         == Acknowledge(Acknowledge(c, b, ring, t), a, ring, t)
  {
    ChangesIndependently(c, a, b, ring, t);
    ChangesIndependently(c, b, a, ring, t);
    if !Changes(c, a, ring, t) {
      UnchangedWithoutChange(c, a, ring, t);
      UnchangedWithoutChange(Acknowledge(c, b, ring, t), a, ring, t);
    } else if !Changes(c, b, ring, t) {
      UnchangedWithoutChange(c, b, ring, t);
      UnchangedWithoutChange(Acknowledge(c, a, ring, t), b, ring, t);
    } else {
      BothOrders(c, a, b, ring, t);
      BothOrders(c, b, a, ring, t);
      MarksCommute(c, a, b, ring);
    }
  }

  function MarkBoth(c: Connection, a: Ack, b: Ack, ring: set<nat>): Connection
    requires a.common.sequence in c.rows && b.common.sequence in c.rows
    requires AckRow(c.rows[a.common.sequence], a, ring).Some? && AckRow(c.rows[b.common.sequence], b, ring).Some?
  {
    var j, k := a.common.sequence, b.common.sequence;
    var lost := LostKey(c.rows[j], ring) || LostKey(c.rows[k], ring);
    c.(rows := c.rows[j := AckRow(c.rows[j], a, ring).value][k := AckRow(c.rows[k], b, ring).value],
       closed := c.closed || lost, ready := c.ready && !lost)
  }

  lemma MarksCommute(c: Connection, a: Ack, b: Ack, ring: set<nat>)
    requires a.common.sequence in c.rows && b.common.sequence in c.rows && a.common.sequence != b.common.sequence
    requires AckRow(c.rows[a.common.sequence], a, ring).Some? && AckRow(c.rows[b.common.sequence], b, ring).Some?
    ensures MarkBoth(c, a, b, ring) == MarkBoth(c, b, a, ring)
  {
    assert MarkBoth(c, a, b, ring).rows == MarkBoth(c, b, a, ring).rows;
  }

  lemma BothOrders(c: Connection, a: Ack, b: Ack, ring: set<nat>, t: nat)
    requires Valid(c) && a.common.sequence != b.common.sequence
    requires Changes(c, a, ring, t) && Changes(c, b, ring, t)
    ensures Acknowledge(Acknowledge(c, a, ring, t), b, ring, t) == Settle(MarkBoth(c, a, b, ring))
  {
    var k := b.common.sequence;
    var m := Mark(c, a, ring, t);
    MarkKeeps(c, a, ring, t);
    ChangesIndependently(c, b, a, ring, t);
    AckRowFits(k, c.rows[k], b, ring);
    var row := AckRow(c.rows[k], b, ring).value;
    SettleTwice(m, k, row);
    SettleFlags(Put(Settle(m), k, row), c.closed || LostKey(c.rows[a.common.sequence], ring) || LostKey(c.rows[k], ring),
                c.ready && !LostKey(c.rows[a.common.sequence], ring) && !LostKey(c.rows[k], ring));
    SettleFlags(Put(m, k, row), c.closed || LostKey(c.rows[a.common.sequence], ring) || LostKey(c.rows[k], ring),
                c.ready && !LostKey(c.rows[a.common.sequence], ring) && !LostKey(c.rows[k], ring));
  }

  /** Settling does not look at the lifecycle columns. */
  lemma SettleFlags(c: Connection, closed: bool, ready: bool)
    ensures Settle(c.(closed := closed, ready := ready)) == Settle(c).(closed := closed, ready := ready)
  {
  }

  /** Of two acknowledgements of one sequence the first recorded one stands. */
  lemma FirstStands(c: Connection, a: Ack, b: Ack, ring: set<nat>, t: nat)
    requires Valid(c) && a.common.sequence == b.common.sequence && Changes(c, a, ring, t)
    ensures Acknowledge(Acknowledge(c, a, ring, t), b, ring, t) == Acknowledge(c, a, ring, t)
  {
    var m := Mark(c, a, ring, t);
    MarkKeeps(c, a, ring, t);
    SettleKeeps(m);
    AckRowFits(a.common.sequence, c.rows[a.common.sequence], a, ring);
    RepeatIsNothing(Settle(m), b, ring, t);
  }

  /** So on the connection two acknowledgements of one command commute exactly
      when they are the same message, or the floor swallows the row at once. */
  lemma SameSequenceOnConnection(c: Connection, a: Ack, b: Ack, ring: set<nat>, t: nat)
    requires Valid(c) && a.common.sequence == b.common.sequence
    requires Changes(c, a, ring, t) && Changes(c, b, ring, t)
    ensures Acknowledge(Acknowledge(c, a, ring, t), b, ring, t)
            == Acknowledge(Acknowledge(c, b, ring, t), a, ring, t)
            <==> a == b || a.common.sequence <= Acknowledge(c, a, ring, t).floor
  {
    FirstStands(c, a, b, ring, t);
    FirstStands(c, b, a, ring, t);
    SameSequenceOutcome(c, a, b, ring, t);
  }

  /** What the recorded acknowledgement leaves behind. */
  lemma Outcome(c: Connection, a: Ack, ring: set<nat>, t: nat)
    requires Valid(c) && Changes(c, a, ring, t)
    ensures var c', k := Acknowledge(c, a, ring, t), a.common.sequence;
            && KnownAcknowledged(Acked(c.rows[k], a))
            && c'.floor == Advance(c.rows[k := Acked(c.rows[k], a)], c.floor, c.next)
            && (k <= c'.floor ==> c'.rows == Prune(c.rows[k := Acked(c.rows[k], a)], c'.floor))
            && (k > c'.floor ==> k in c'.rows && c'.rows[k].ackBody == Some(a))
            && c' == c.(floor := c'.floor, rows := c'.rows, closed := c'.closed, ready := c'.ready)
            && c'.closed == (c.closed || LostKey(c.rows[k], ring))
            && c'.ready == (c.ready && !LostKey(c.rows[k], ring))
  {
    var m := Mark(c, a, ring, t);
    MarkKeeps(c, a, ring, t);
    SettleKeeps(m);
    AckRowFitsKnown(a.common.sequence, c.rows[a.common.sequence], a, ring);
  }

  lemma SameSequenceOutcome(c: Connection, a: Ack, b: Ack, ring: set<nat>, t: nat)
    requires Valid(c) && a.common.sequence == b.common.sequence
    requires Changes(c, a, ring, t) && Changes(c, b, ring, t)
    ensures Acknowledge(c, a, ring, t) == Acknowledge(c, b, ring, t)
            <==> a == b || a.common.sequence <= Acknowledge(c, a, ring, t).floor
  {
    Outcome(c, a, ring, t);
    Outcome(c, b, ring, t);
    CompareOutcomes(c, a, b, Acknowledge(c, a, ring, t), Acknowledge(c, b, ring, t));
  }

  lemma CompareOutcomes(c: Connection, a: Ack, b: Ack, u: Connection, v: Connection)
    requires var k: nat := a.common.sequence;
             && b.common.sequence == k && k in c.rows
             && KnownAcknowledged(Acked(c.rows[k], a)) && KnownAcknowledged(Acked(c.rows[k], b))
             && u.floor == Advance(c.rows[k := Acked(c.rows[k], a)], c.floor, c.next)
             && v.floor == Advance(c.rows[k := Acked(c.rows[k], b)], c.floor, c.next)
             && (k <= u.floor ==> u.rows == Prune(c.rows[k := Acked(c.rows[k], a)], u.floor))
             && (k <= v.floor ==> v.rows == Prune(c.rows[k := Acked(c.rows[k], b)], v.floor))
             && (k > u.floor ==> k in u.rows && u.rows[k].ackBody == Some(a))
             && (k > v.floor ==> k in v.rows && v.rows[k].ackBody == Some(b))
    requires u == v.(floor := u.floor, rows := u.rows) && (a == b ==> u == v)
    ensures u == v <==> a == b || a.common.sequence <= u.floor
  {
    var k: nat := a.common.sequence;
    SameMarksSameFloor(c, k, Acked(c.rows[k], a), Acked(c.rows[k], b), c.floor);
    if k <= u.floor {
      assert u.rows == v.rows;
    }
  }

  lemma AckRowFitsKnown(k: nat, row: Row, a: Ack, ring: set<nat>)
    requires RowFits(k, row) && Consumes(a.status) && row.state != Acknowledged && AckRow(row, a, ring).Some?
    ensures AckRow(row, a, ring).value == Acked(row, a) && KnownAcknowledged(Acked(row, a))
  {
  }

  lemma {:induction false} SameMarksSameFloor(c: Connection, k: nat, x: Row, y: Row, floor: nat)
    requires KnownAcknowledged(x) && KnownAcknowledged(y)
    ensures Advance(c.rows[k := x], floor, c.next) == Advance(c.rows[k := y], floor, c.next)
    decreases if floor < c.next then c.next - floor else 0
  {
    if floor + 1 < c.next {
      SameMarksSameFloor(c, k, x, y, floor + 1);
    }
  }

  // ----- with the sessions they publish to -----

  datatype Item = Item(conn: nat, ack: Ack)

  ghost predicate Good(w: World) {
    && (forall c | c in w.conns :: Valid(w.conns[c]))
    && Coherent(w)
  }

  predicate PendingUpdate(w: World, c: nat, k: nat) {
    c in w.conns && k in w.conns[c].rows && w.conns[c].rows[k].state == Pending
    && w.conns[c].rows[k].kind == UpdateSession && w.conns[c].rows[k].body.Some?
  }

  /** Two pending updates of one session, generation and revision carry one
      parameter set. */
  predicate Agree(x: Row, y: Row)
    requires x.body.Some? && y.body.Some?
  {
    x.subjectId == y.subjectId && x.subjectSequence == y.subjectSequence
    && x.body.value.paramsRevision == y.body.value.paramsRevision
    ==> x.body.value.params == y.body.value.params
  }

  ghost predicate Coherent(w: World) {
    forall c, k, d, m | PendingUpdate(w, c, k) && PendingUpdate(w, d, m) ::
      Agree(w.conns[c].rows[k], w.conns[d].rows[m])
  }

  /** The row whose body an acknowledgement would put into effect, revision aside. */
  function Wish(w: World, x: Item, env: Env): Option<Row>
    requires x.conn in w.conns
  {
    var c := w.conns[x.conn];
    if Changes(c, x.ack, env.ring, env.transport)
       && Current(w, x.conn, c.rows[x.ack.common.sequence], x.ack, env)
    then Some(c.rows[x.ack.common.sequence]) else None
  }

  predicate Newer(sessions: map<nat, Session>, wish: Option<Row>) {
    && wish.Some? && wish.value.body.Some? && wish.value.subjectId in sessions
    && sessions[wish.value.subjectId].paramsRevision < wish.value.body.value.paramsRevision
  }

  /** The newest acknowledged revision wins. */
  function Granted(sessions: map<nat, Session>, wish: Option<Row>): map<nat, Session> {
    if Newer(sessions, wish)
    then sessions[wish.value.subjectId := Effected(sessions[wish.value.subjectId], wish.value.body.value)]
    else sessions
  }

  function AckStep(w: World, x: Item, env: Env): World {
    if x.conn in w.conns then AckIn(w, x.conn, x.ack, env) else w
  }

  /** An acknowledgement changes its own connection and grants its wish. */
  lemma AckShape(w: World, x: Item, env: Env)
    requires x.conn in w.conns
    ensures AckIn(w, x.conn, x.ack, env)
         == w.(conns := w.conns[x.conn := Acknowledge(w.conns[x.conn], x.ack, env.ring, env.transport)],
               sessions := Granted(w.sessions, Wish(w, x, env)))
  {
  }

  lemma GrantsCommute(sessions: map<nat, Session>, x: Option<Row>, y: Option<Row>)
    requires x.Some? && x.value.body.Some? && y.Some? && y.value.body.Some?
      && x.value.subjectId == y.value.subjectId
      && x.value.body.value.paramsRevision == y.value.body.value.paramsRevision
      ==> x.value.body.value.params == y.value.body.value.params
    ensures Granted(Granted(sessions, x), y) == Granted(Granted(sessions, y), x)
  {
  }

  /** Pending rows only ever disappear or stay as they were. */
  predicate Shrinks(c: Connection, c': Connection) {
    forall k | k in c'.rows && c'.rows[k].state == Pending :: k in c.rows && c.rows[k] == c'.rows[k]
  }

  lemma MarkShrinks(c: Connection, a: Ack, ring: set<nat>, t: nat)
    requires Valid(c) && Records(c, a, ring, t)
    ensures Shrinks(c, Mark(c, a, ring, t))
  {
    AckRowFits(a.common.sequence, c.rows[a.common.sequence], a, ring);
  }

  lemma AckShrinks(c: Connection, a: Ack, ring: set<nat>, t: nat)
    requires Valid(c)
    ensures Valid(Acknowledge(c, a, ring, t)) && Shrinks(c, Acknowledge(c, a, ring, t))
  {
    AcknowledgeKeeps(c, a, ring, t);
    if Records(c, a, ring, t) {
      MarkKeeps(c, a, ring, t);
      MarkShrinks(c, a, ring, t);
      SettleKeeps(Mark(c, a, ring, t));
    }
  }

  lemma ShrinkKeepsCoherent(w: World, w': World)
    requires Coherent(w)
    requires forall c | c in w'.conns :: c in w.conns && Shrinks(w.conns[c], w'.conns[c])
    ensures Coherent(w')
  {
    forall c, k, d, m | PendingUpdate(w', c, k) && PendingUpdate(w', d, m)
      ensures Agree(w'.conns[c].rows[k], w'.conns[d].rows[m])
    {
      assert PendingUpdate(w, c, k) && PendingUpdate(w, d, m);
      assert Agree(w.conns[c].rows[k], w.conns[d].rows[m]);
    }
  }

  lemma ShrinkKeepsGood(w: World, conn: nat, c': Connection, sessions: map<nat, Session>)
    requires Good(w) && conn in w.conns && Valid(c') && Shrinks(w.conns[conn], c')
    ensures Good(w.(conns := w.conns[conn := c'], sessions := sessions))
  {
    ShrinkKeepsCoherent(w, w.(conns := w.conns[conn := c'], sessions := sessions));
  }

  lemma AckKeepsGood(w: World, x: Item, env: Env)
    requires Good(w)
    ensures Good(AckStep(w, x, env))
  {
    if x.conn in w.conns {
      AckShape(w, x, env);
      AckShrinks(w.conns[x.conn], x.ack, env.ring, env.transport);
      ShrinkKeepsGood(w, x.conn, Acknowledge(w.conns[x.conn], x.ack, env.ring, env.transport),
                      Granted(w.sessions, Wish(w, x, env)));
    }
  }

  /** Whether a session row qualifies does not depend on its parameters. */
  lemma CurrentIgnoresParameters(w: World, conns: map<nat, Connection>, wish: Option<Row>, conn: nat, row: Row,
                                 ack: Ack, env: Env)
    ensures Current(w.(conns := conns, sessions := Granted(w.sessions, wish)), conn, row, ack, env)
         == Current(w, conn, row, ack, env)
  {
  }

  lemma WishSurvives(w: World, conns: map<nat, Connection>, wish: Option<Row>, x: Item, env: Env)
    requires x.conn in w.conns && x.conn in conns
    requires Changes(conns[x.conn], x.ack, env.ring, env.transport)
        <==> Changes(w.conns[x.conn], x.ack, env.ring, env.transport)
    requires Changes(w.conns[x.conn], x.ack, env.ring, env.transport)
        ==> conns[x.conn].rows[x.ack.common.sequence] == w.conns[x.conn].rows[x.ack.common.sequence]
    ensures Wish(w.(conns := conns, sessions := Granted(w.sessions, wish)), x, env) == Wish(w, x, env)
  {
    if Changes(w.conns[x.conn], x.ack, env.ring, env.transport) {
      CurrentIgnoresParameters(w, conns, wish, x.conn, w.conns[x.conn].rows[x.ack.common.sequence], x.ack, env);
    }
  }

  predicate Distinct(x: Item, y: Item) {
    x.conn != y.conn || x.ack.common.sequence != y.ack.common.sequence
  }

  lemma WishIndependent(w: World, x: Item, y: Item, env: Env)
    requires Good(w) && x.conn in w.conns && y.conn in w.conns && Distinct(x, y)
    ensures Wish(AckIn(w, y.conn, y.ack, env), x, env) == Wish(w, x, env)
  {
    AckShape(w, y, env);
    if x.conn == y.conn {
      ChangesIndependently(w.conns[x.conn], x.ack, y.ack, env.ring, env.transport);
    }
    WishSurvives(w, w.conns[y.conn := Acknowledge(w.conns[y.conn], y.ack, env.ring, env.transport)],
                 Wish(w, y, env), x, env);
  }

  lemma WishesAgree(w: World, x: Item, y: Item, env: Env)
    requires Good(w) && x.conn in w.conns && y.conn in w.conns
    requires Wish(w, x, env).Some? && Wish(w, y, env).Some?
    requires Wish(w, x, env).value.subjectId == Wish(w, y, env).value.subjectId
    ensures Wish(w, x, env).value.body.Some? && Wish(w, y, env).value.body.Some?
    ensures Agree(Wish(w, x, env).value, Wish(w, y, env).value)
    ensures Wish(w, x, env).value.subjectSequence == Wish(w, y, env).value.subjectSequence
  {
    assert PendingUpdate(w, x.conn, x.ack.common.sequence);
    assert PendingUpdate(w, y.conn, y.ack.common.sequence);
  }

  lemma SessionsCommute(w: World, x: Item, y: Item, env: Env)
    requires Good(w) && x.conn in w.conns && y.conn in w.conns
    ensures Granted(Granted(w.sessions, Wish(w, x, env)), Wish(w, y, env))
         == Granted(Granted(w.sessions, Wish(w, y, env)), Wish(w, x, env))
  {
    var a, b := Wish(w, x, env), Wish(w, y, env);
    if a.Some? && b.Some? && a.value.subjectId == b.value.subjectId {
      WishesAgree(w, x, y, env);
    }
    GrantsCommute(w.sessions, a, b);
  }

  lemma TwoAcks(w: World, x: Item, y: Item, env: Env)
    requires Good(w) && x.conn in w.conns && y.conn in w.conns && Distinct(x, y)
    ensures var cx := Acknowledge(w.conns[x.conn], x.ack, env.ring, env.transport);
            var conns := w.conns[x.conn := cx];
            AckIn(AckIn(w, x.conn, x.ack, env), y.conn, y.ack, env)
            == w.(conns := conns[y.conn := Acknowledge(conns[y.conn], y.ack, env.ring, env.transport)],
                  sessions := Granted(Granted(w.sessions, Wish(w, x, env)), Wish(w, y, env)))
  {
    AckShape(w, x, env);
    AckShape(AckIn(w, x.conn, x.ack, env), y, env);
    WishIndependent(w, y, x, env);
  }

  lemma ConnectionsCommute(conns: map<nat, Connection>, x: Item, y: Item, ring: set<nat>, t: nat)
    requires x.conn in conns && y.conn in conns && Distinct(x, y)
    requires forall c | c in conns :: Valid(conns[c])
    ensures var cx := conns[x.conn := Acknowledge(conns[x.conn], x.ack, ring, t)];
            var cy := conns[y.conn := Acknowledge(conns[y.conn], y.ack, ring, t)];
            cx[y.conn := Acknowledge(cx[y.conn], y.ack, ring, t)]
            == cy[x.conn := Acknowledge(cy[x.conn], x.ack, ring, t)]
  {
    if x.conn == y.conn {
      var c := conns[x.conn];
      AcksCommuteOnConnection(c, x.ack, y.ack, ring, t);
      var u, v := Acknowledge(c, x.ack, ring, t), Acknowledge(c, y.ack, ring, t);
      LastUpdateStands(conns, x.conn, u, Acknowledge(u, y.ack, ring, t));
      LastUpdateStands(conns, x.conn, v, Acknowledge(v, x.ack, ring, t));
    } else {
      UpdatesCommute(conns, x.conn, Acknowledge(conns[x.conn], x.ack, ring, t),
                     y.conn, Acknowledge(conns[y.conn], y.ack, ring, t));
    }
  }

  lemma LastUpdateStands(conns: map<nat, Connection>, i: nat, u: Connection, v: Connection)
    ensures conns[i := u][i := v] == conns[i := v]
  {
  }

  lemma UpdatesCommute(conns: map<nat, Connection>, i: nat, u: Connection, j: nat, v: Connection)
    requires i != j
    ensures conns[i := u][j := v] == conns[j := v][i := u]
  {
  }

  /** Acknowledgements of different commands may arrive in either order. */
  lemma AcksCommute(w: World, x: Item, y: Item, env: Env)
    requires Good(w) && Distinct(x, y)
    ensures AckStep(AckStep(w, x, env), y, env) == AckStep(AckStep(w, y, env), x, env)
  {
    if x.conn in w.conns && y.conn in w.conns {
      TwoAcks(w, x, y, env);
      TwoAcks(w, y, x, env);
      SessionsCommute(w, x, y, env);
      ConnectionsCommute(w.conns, x, y, env.ring, env.transport);
    }
  }

  lemma NothingLeftToChange(c: Connection, a: Ack, ring: set<nat>, t: nat)
    requires Valid(c)
    ensures !Changes(Acknowledge(c, a, ring, t), a, ring, t)
  {
    if Records(c, a, ring, t) {
      var m := Mark(c, a, ring, t);
      MarkKeeps(c, a, ring, t);
      SettleKeeps(m);
      AckRowFits(a.common.sequence, c.rows[a.common.sequence], a, ring);
    }
  }

  lemma PublishingChanges(w: World, x: Item, env: Env)
    requires x.conn in w.conns && Publishes(w, x.conn, x.ack, env)
    ensures Changes(w.conns[x.conn], x.ack, env.ring, env.transport)
  {
  }

  /** A repeated acknowledgement changes nothing. */
  lemma AckRepeats(w: World, x: Item, env: Env)
    requires Good(w)
    ensures AckStep(AckStep(w, x, env), x, env) == AckStep(w, x, env)
  {
    if x.conn in w.conns {
      AckShape(w, x, env);
      AckShape(AckIn(w, x.conn, x.ack, env), x, env);
      AckTwice(w.conns[x.conn], x.ack, env.ring, env.transport);
      NothingLeftToChange(w.conns[x.conn], x.ack, env.ring, env.transport);
    }
  }

  /** A repeated acknowledgement publishes nothing. */
  lemma AckPublishesOnce(w: World, x: Item, env: Env)
    requires Good(w) && x.conn in w.conns
    ensures !Publishes(AckStep(w, x, env), x.conn, x.ack, env)
  {
    var w' := AckIn(w, x.conn, x.ack, env);
    AckShape(w, x, env);
    NothingLeftToChange(w.conns[x.conn], x.ack, env.ring, env.transport);
    if Publishes(w', x.conn, x.ack, env) {
      PublishingChanges(w', x, env);
    }
  }

  // ----- two acknowledgements of one command -----

  lemma NoFurtherChange(c: Connection, a: Ack, b: Ack, ring: set<nat>, t: nat)
    requires Valid(c) && a.common.sequence == b.common.sequence && Changes(c, a, ring, t)
    ensures !Changes(Acknowledge(c, a, ring, t), b, ring, t)
  {
    var m := Mark(c, a, ring, t);
    MarkKeeps(c, a, ring, t);
    SettleKeeps(m);
    AckRowFits(a.common.sequence, c.rows[a.common.sequence], a, ring);
  }

  lemma UnchangedWorld(w: World, x: Item, env: Env)
    requires Good(w) && x.conn in w.conns
    requires !Changes(w.conns[x.conn], x.ack, env.ring, env.transport)
    ensures AckStep(w, x, env) == w
  {
    AckShape(w, x, env);
    UnchangedWithoutChange(w.conns[x.conn], x.ack, env.ring, env.transport);
  }

  /** Whichever acknowledgement of a command is recorded first, the other one
      does nothing any more. */
  lemma SecondAckIsNothing(w: World, x: Item, y: Item, env: Env)
    requires Good(w) && x.conn in w.conns && !Distinct(x, y)
    requires Changes(w.conns[x.conn], x.ack, env.ring, env.transport)
    ensures AckStep(AckStep(w, x, env), y, env) == AckStep(w, x, env)
  {
    NoFurtherChange(w.conns[x.conn], x.ack, y.ack, env.ring, env.transport);
    AckShape(w, x, env);
    AckKeepsGood(w, x, env);
    UnchangedWorld(AckStep(w, x, env), y, env);
  }

  /** Publishing is what moves the effective side. */
  lemma PublishingGrants(w: World, x: Item, env: Env)
    requires x.conn in w.conns
    ensures Publishes(w, x.conn, x.ack, env) <==> Granted(w.sessions, Wish(w, x, env)) != w.sessions
  {
    if Publishes(w, x.conn, x.ack, env) {
      PublishingChanges(w, x, env);
      var row := w.conns[x.conn].rows[x.ack.common.sequence];
      assert Effected(w.sessions[row.subjectId], row.body.value) != w.sessions[row.subjectId];
    }
  }

  /** Two messages that name one command and both accept it are one message. */
  lemma OneAcceptance(row: Row, a: Ack, b: Ack)
    requires Names(row, a) && Names(row, b) && a.status == b.status
    ensures a == b
  {
  }

  lemma OnePublication(w: World, x: Item, y: Item, env: Env)
    requires x.conn in w.conns && !Distinct(x, y) && x.ack != y.ack
    ensures !(Publishes(w, x.conn, x.ack, env) && Publishes(w, y.conn, y.ack, env))
  {
    if Publishes(w, x.conn, x.ack, env) && Publishes(w, y.conn, y.ack, env) {
      OneAcceptance(w.conns[x.conn].rows[x.ack.common.sequence], x.ack, y.ack);
    }
  }

  /** The two outcomes agree exactly when the messages do, or when the floor
      passes the row and neither publishes. */
  lemma SameOutcome(w: World, x: Item, y: Item, env: Env)
    requires Good(w) && x.conn in w.conns && !Distinct(x, y)
    requires Changes(w.conns[x.conn], x.ack, env.ring, env.transport)
    requires Changes(w.conns[x.conn], y.ack, env.ring, env.transport)
    ensures AckStep(w, x, env) == AckStep(w, y, env) <==>
      || x.ack == y.ack
      || (&& x.ack.common.sequence <= Acknowledge(w.conns[x.conn], x.ack, env.ring, env.transport).floor
          && !Publishes(w, x.conn, x.ack, env) && !Publishes(w, y.conn, y.ack, env))
  {
    var c := w.conns[x.conn];
    SameSequenceOutcome(c, x.ack, y.ack, env.ring, env.transport);
    AckShape(w, x, env);
    AckShape(w, y, env);
    PublishingGrants(w, x, env);
    PublishingGrants(w, y, env);
    if x.ack != y.ack {
      OnePublication(w, x, y, env);
      DifferentWorlds(w, x.conn, Acknowledge(c, x.ack, env.ring, env.transport),
                      Acknowledge(c, y.ack, env.ring, env.transport),
                      Granted(w.sessions, Wish(w, x, env)), Granted(w.sessions, Wish(w, y, env)));
    }
  }

  lemma DifferentWorlds(w: World, conn: nat, c: Connection, d: Connection,
                        s: map<nat, Session>, t: map<nat, Session>)
    ensures w.(conns := w.conns[conn := c], sessions := s) == w.(conns := w.conns[conn := d], sessions := t)
            <==> c == d && s == t
  {
    if w.conns[conn := c] == w.conns[conn := d] {
      assert w.conns[conn := c][conn] == w.conns[conn := d][conn];
    }
  }

  /** Two acknowledgements of one command commute, floors, rows, lifecycle and
      effective parameters together, if and only if one of them changes nothing,
      they are the same message, or the floor passes the row at once and neither
      publishes: otherwise the first one stands. */
  lemma SameCommandCommutes(w: World, x: Item, y: Item, env: Env)
    requires Good(w) && x.conn in w.conns && !Distinct(x, y)
    ensures AckStep(AckStep(w, x, env), y, env) == AckStep(AckStep(w, y, env), x, env) <==>
      || !Changes(w.conns[x.conn], x.ack, env.ring, env.transport)
      || !Changes(w.conns[x.conn], y.ack, env.ring, env.transport)
      || x.ack == y.ack
      || (&& x.ack.common.sequence <= Acknowledge(w.conns[x.conn], x.ack, env.ring, env.transport).floor
          && !Publishes(w, x.conn, x.ack, env) && !Publishes(w, y.conn, y.ack, env))
  {
    var c := w.conns[x.conn];
    if Changes(c, x.ack, env.ring, env.transport) {
      SecondAckIsNothing(w, x, y, env);
    } else {
      UnchangedWorld(w, x, env);
    }
    if Changes(c, y.ack, env.ring, env.transport) {
      SecondAckIsNothing(w, y, x, env);
    } else {
      UnchangedWorld(w, y, env);
    }
    if Changes(c, x.ack, env.ring, env.transport) && Changes(c, y.ack, env.ring, env.transport) {
      SameOutcome(w, x, y, env);
    }
  }

  const UPDATE_COMMON := Common(0, 0, 0, 0, 0, 0, 0, 1, 0, 0)
  const UPDATE_SUBJECT := SessionSubject(5, 6, 1)
  const UPDATE_IDENTITY := Identity(UpdateSession, UPDATE_COMMON, UPDATE_SUBJECT)
  const UPDATE_ROW :=
    Row(0, UpdateSession, 0, Some(9), 5, 1, Some(UPDATE_IDENTITY), Some(1),
        Some(Command(UPDATE_IDENTITY, 3, 77, 2)), 10, Pending, false, None, None, None)
  const ONE_UPDATE :=
    World(map[0 := Connection(0, false, true, 0, 2, map[1 := UPDATE_ROW])],
          map[5 := Session(9, None, 0, 3, Live, 1, 55, 1, 77, 2)],
          map[AttemptKey(5, 1) := Attempt(0, 6, Running, Some(Range(9, true)))])
  const UPDATE_ENV := Env({1}, None, 0, {Binding(9, None)})
  const ACCEPTS := Item(0, Ack(UPDATE_COMMON, UPDATE_SUBJECT, Accepted))
  const REFUSES := Item(0, Ack(UPDATE_COMMON, UPDATE_SUBJECT, Refused(AttemptStale)))

  /** One pending update at the head, accepted and refused: the connection ends
      the same either way, the session does not. */
  lemma AcceptedAndRefusedDiffer()
    ensures Good(ONE_UPDATE)
    ensures Acknowledge(ONE_UPDATE.conns[0], ACCEPTS.ack, {1}, 0)
            == Acknowledge(ONE_UPDATE.conns[0], REFUSES.ack, {1}, 0)
    ensures 5 in AckStep(AckStep(ONE_UPDATE, ACCEPTS, UPDATE_ENV), REFUSES, UPDATE_ENV).sessions
    ensures 5 in AckStep(AckStep(ONE_UPDATE, REFUSES, UPDATE_ENV), ACCEPTS, UPDATE_ENV).sessions
    ensures AckStep(AckStep(ONE_UPDATE, ACCEPTS, UPDATE_ENV), REFUSES, UPDATE_ENV).sessions[5].effective == 77
    ensures AckStep(AckStep(ONE_UPDATE, REFUSES, UPDATE_ENV), ACCEPTS, UPDATE_ENV).sessions[5].effective == 55
  {
    OneUpdateIsGood();
    OneUpdatePublishes();
    SecondAckIsNothing(ONE_UPDATE, ACCEPTS, REFUSES, UPDATE_ENV);
    SecondAckIsNothing(ONE_UPDATE, REFUSES, ACCEPTS, UPDATE_ENV);
    SameSequenceOutcome(ONE_UPDATE.conns[0], ACCEPTS.ack, REFUSES.ack, {1}, 0);
    Outcome(ONE_UPDATE.conns[0], ACCEPTS.ack, {1}, 0);
  }

  lemma OneUpdatePublishes()
    requires Changes(ONE_UPDATE.conns[0], ACCEPTS.ack, {1}, 0)
    ensures 5 in AckStep(ONE_UPDATE, ACCEPTS, UPDATE_ENV).sessions
    ensures AckStep(ONE_UPDATE, ACCEPTS, UPDATE_ENV).sessions[5].effective == 77
    ensures AckStep(ONE_UPDATE, REFUSES, UPDATE_ENV).sessions == ONE_UPDATE.sessions
  {
    AckShape(ONE_UPDATE, ACCEPTS, UPDATE_ENV);
    AckShape(ONE_UPDATE, REFUSES, UPDATE_ENV);
  }

  lemma OneUpdateIsGood()
    ensures Good(ONE_UPDATE)
    ensures Changes(ONE_UPDATE.conns[0], ACCEPTS.ack, {1}, 0) && Changes(ONE_UPDATE.conns[0], REFUSES.ack, {1}, 0)
  {
    var c := ONE_UPDATE.conns[0];
    assert RowFits(1, UPDATE_ROW);
    assert PendingBytes(c.rows, 2) == PendingBytes(c.rows, 1) + 10 == PendingBytes(c.rows, 0) + 10;
    assert Valid(c);
    forall d, k, e, m | PendingUpdate(ONE_UPDATE, d, k) && PendingUpdate(ONE_UPDATE, e, m)
      ensures Agree(ONE_UPDATE.conns[d].rows[k], ONE_UPDATE.conns[e].rows[m])
    {
      assert k == 1 && m == 1;
    }
  }

  // ----- any order, any repetition -----

  function AckAll(w: World, xs: seq<Item>, env: Env): World {
    Fold((s: World, x: Item) => AckStep(s, x, env), w, xs)
  }

  /** At most one acknowledgement for any one command. */
  predicate OnePerCommand(xs: seq<Item>) {
    forall x, y | x in xs && y in xs && x != y :: Distinct(x, y)
  }

  /** Any order and any repetition of one set of acknowledgements ends in the
      same floors, rows, lifecycles and effective parameters. */
  lemma OrderDoesNotMatter(w: World, xs: seq<Item>, ys: seq<Item>, env: Env)
    requires Good(w) && OnePerCommand(xs)
    requires forall x :: x in xs <==> x in ys
    ensures AckAll(w, xs, env) == AckAll(w, ys, env)
  {
    var f := (s: World, x: Item) => AckStep(s, x, env);
    var steps := set x | x in xs;
    ghost var inv := (s: World) => Good(s);
    forall s, x | inv(s) && x in steps
      ensures inv(f(s, x)) && f(f(s, x), x) == f(s, x)
    {
      AckKeepsGood(s, x, env);
      AckRepeats(s, x, env);
    }
    forall s, x, y | inv(s) && x in steps && y in steps
      ensures f(f(s, x), y) == f(f(s, y), x)
    {
      if x != y {
        AcksCommute(s, x, y, env);
      }
    }
    SameSetSameFold(f, inv, steps, w, xs, ys);
  }

  // ----- which acknowledgements publish -----

  /** One row carries the other's revision of its session, or a later one. */
  predicate AtLeastAsNew(a: Option<Row>, b: Option<Row>) {
    && a.Some? && b.Some? && a.value.body.Some? && b.value.body.Some?
    && a.value.subjectId == b.value.subjectId
    && a.value.body.value.paramsRevision >= b.value.body.value.paramsRevision
  }

  /** `x` puts the revision `y` carries, or a later one of its session, into
      effect. */
  predicate Overtakes(w: World, x: Item, y: Item, env: Env) {
    x.conn in w.conns && y.conn in w.conns && AtLeastAsNew(Wish(w, x, env), Wish(w, y, env))
  }

  predicate Overtaken(w: World, before: seq<Item>, y: Item, env: Env) {
    exists x | x in before :: Overtakes(w, x, y, env)
  }

  lemma PublishesItsWish(w: World, y: Item, env: Env)
    requires y.conn in w.conns
    ensures Publishes(w, y.conn, y.ack, env) <==> Newer(w.sessions, Wish(w, y, env))
  {
    if Publishes(w, y.conn, y.ack, env) {
      PublishingChanges(w, y, env);
    }
  }

  lemma NewerAfterGrant(sessions: map<nat, Session>, a: Option<Row>, b: Option<Row>)
    ensures Newer(Granted(sessions, a), b) <==> Newer(sessions, b) && !AtLeastAsNew(a, b)
  {
  }

  /** One acknowledgement of another command takes exactly the publications it
      overtakes. */
  lemma PublishesAfterOne(w: World, x: Item, y: Item, env: Env)
    requires Good(w) && Distinct(x, y) && y.conn in w.conns
    ensures y.conn in AckStep(w, x, env).conns
    ensures Publishes(AckStep(w, x, env), y.conn, y.ack, env)
            <==> Publishes(w, y.conn, y.ack, env) && !Overtakes(w, x, y, env)
  {
    PublishesItsWish(w, y, env);
    if x.conn in w.conns {
      var w' := AckIn(w, x.conn, x.ack, env);
      assert w'.sessions == Granted(w.sessions, Wish(w, x, env)) && y.conn in w'.conns by {
        AckShape(w, x, env);
      }
      WishIndependent(w, y, x, env);
      PublishesItsWish(w', y, env);
      NewerAfterGrant(w.sessions, Wish(w, x, env), Wish(w, y, env));
    }
  }

  /** What overtakes afterwards is what overtook before, but for repeats. */
  lemma StillOvertakes(w: World, first: Item, x: Item, y: Item, env: Env)
    requires Good(w) && Distinct(first, y) && y.conn in w.conns && (x == first || Distinct(x, first))
    ensures Overtakes(AckStep(w, first, env), x, y, env) <==> x != first && Overtakes(w, x, y, env)
  {
    if first.conn in w.conns {
      AckShape(w, first, env);
      WishIndependent(w, y, first, env);
      if x == first {
        NothingLeftToChange(w.conns[x.conn], x.ack, env.ring, env.transport);
      } else if x.conn in w.conns {
        WishIndependent(w, x, first, env);
      }
    }
  }

  /** In any order of acknowledgements, one per command and repeated at will, one
      is published exactly when it would have been at once and no revision of
      its session that is as new took effect before it. */
  lemma {:induction false} PublishedUnlessOvertaken(w: World, before: seq<Item>, y: Item, env: Env)
    requires Good(w) && y.conn in w.conns && y !in before && OnePerCommand(before + [y])
    ensures y.conn in AckAll(w, before, env).conns
    ensures Publishes(AckAll(w, before, env), y.conn, y.ack, env)
            <==> Publishes(w, y.conn, y.ack, env) && !Overtaken(w, before, y, env)
    decreases |before|
  {
    if before != [] {
      var first, rest := before[0], before[1..];
      var w' := AckStep(w, first, env);
      assert before == [first] + rest;
      TailIsOnePerCommand(first, rest, y);
      AckKeepsGood(w, first, env);
      PublishesAfterOne(w, first, y, env);
      PublishedUnlessOvertaken(w', rest, y, env);
      OvertakenAfterOne(w, first, rest, y, env);
      AckFirst(w, before, env);
    }
  }

  lemma AckFirst(w: World, xs: seq<Item>, env: Env)
    requires xs != []
    ensures AckAll(w, xs, env) == AckAll(AckStep(w, xs[0], env), xs[1..], env)
  {
  }

  lemma TailIsOnePerCommand(first: Item, rest: seq<Item>, y: Item)
    requires OnePerCommand([first] + rest + [y]) && y !in [first] + rest
    ensures OnePerCommand(rest + [y]) && y !in rest && Distinct(first, y)
    ensures forall x | x in rest :: x == first || Distinct(x, first)
  {
    var all := [first] + rest + [y];
    assert first in all && y in all && forall x | x in rest + [y] :: x in all;
    assert first in [first] + rest && forall x | x in rest :: x in [first] + rest;
  }

  lemma OvertakenAfterOne(w: World, first: Item, rest: seq<Item>, y: Item, env: Env)
    requires Good(w) && y.conn in w.conns && Distinct(first, y)
    requires forall x | x in rest :: x == first || Distinct(x, first)
    ensures Overtaken(w, [first] + rest, y, env)
            <==> Overtakes(w, first, y, env) || Overtaken(AckStep(w, first, env), rest, y, env)
  {
    var w' := AckStep(w, first, env);
    forall x | x in rest
      ensures Overtakes(w', x, y, env) <==> x != first && Overtakes(w, x, y, env)
    {
      StillOvertakes(w, first, x, y, env);
    }
    OvertakenSplits(w, w', first, rest, y, env);
  }

  lemma OvertakenSplits(w: World, w': World, first: Item, rest: seq<Item>, y: Item, env: Env)
    requires forall x | x in rest :: Overtakes(w', x, y, env) <==> x != first && Overtakes(w, x, y, env)
    ensures Overtaken(w, [first] + rest, y, env) <==> Overtakes(w, first, y, env) || Overtaken(w', rest, y, env)
  {
    if Overtaken(w', rest, y, env) {
      var x :| x in rest && Overtakes(w', x, y, env);
      assert x in [first] + rest && Overtakes(w, x, y, env);
    }
    if Overtaken(w, [first] + rest, y, env) {
      var x :| x in [first] + rest && Overtakes(w, x, y, env);
      assert x == first || Overtakes(w', x, y, env);
    }
    if Overtakes(w, first, y, env) {
      assert first in [first] + rest;
    }
  }
}

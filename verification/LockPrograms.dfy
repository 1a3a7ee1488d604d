/** What each command-journal transaction locks, statement by statement, and the
    proof that all of them keep the lock discipline. A refusal stops a program
    early, which LockOrder allows at any point. */
module LockPrograms {
  import opened Wrappers
  import opened LockOrder

  /** A journal row's place in ORDER BY worker_id, incarnation, command_sequence. */
  datatype RowName = RowName(worker: nat, incarnation: nat, sequence: nat)

  datatype WorkerName = WorkerName(worker: nat, incarnation: nat)

  datatype AttachedRow = AttachedRow(kind: SubjectKind, subject: nat, row: nat)

  /** A session or job row together with the attempt rows locked beside it. */
  datatype Subject = Subject(kind: SubjectKind, id: nat, attempts: seq<nat>)

  datatype Claim =
    | OpenSession(session: nat)
    | UpdateSession(session: nat, attempt: Option<nat>, authSession: Option<nat>)
    | CloseSession(session: nat, attempt: Option<nat>, authSession: Option<nat>)
    | DispatchJob(job: nat, asset: Option<nat>)
    | CancelJob(job: nat, attempt: Option<nat>)

  datatype Txn =
    | Commit(user: UserId, claim: Claim, worker: WorkerName, journal: seq<nat>, region: nat)
    | DeliverSession(user: UserId, session: nat, authSession: Option<nat>, attempt: Option<nat>,
                     range: Option<nat>, worker: WorkerName, journal: seq<nat>, region: nat)
    | DeliverJob(user: UserId, job: nat, attempt: Option<nat>, range: Option<nat>,
                 worker: WorkerName, journal: seq<nat>, region: nat)
    | Acknowledge(owner: Option<UserId>, update: Option<UpdateSubject>, worker: WorkerName,
                  journal: seq<nat>, region: nat)
    | Erase(users: seq<UserId>, rescan: bool, subjects: seq<Subject>, ranges: seq<AttachedRow>,
            rows: seq<RowName>, regions: seq<nat>, workers: seq<WorkerName>)

  /** The session an update acknowledgement may publish to; the principal is
      looked at last, after the connection row is held. */
  datatype UpdateSubject = UpdateSubject(session: nat, attempt: Option<nat>, range: Option<nat>,
                                         authSession: Option<nat>)

  // ----- sorted inputs -----

  predicate Ascending(s: seq<nat>) {
    forall i, j | 0 <= i < j < |s| :: s[i] < s[j]
  }

  predicate RowBefore(a: RowName, b: RowName) {
    a.worker < b.worker || (a.worker == b.worker
      && (a.incarnation < b.incarnation || (a.incarnation == b.incarnation && a.sequence < b.sequence)))
  }

  predicate WorkerBefore(a: WorkerName, b: WorkerName) {
    a.worker < b.worker || (a.worker == b.worker && a.incarnation < b.incarnation)
  }

  predicate SubjectBefore(a: Subject, b: Subject) {
    KindRank(a.kind) < KindRank(b.kind) || (a.kind == b.kind && a.id < b.id)
  }

  /** Users compare as PostgreSQL compares UUIDs: byte by byte. */
  predicate BytesBefore(a: seq<nat>, b: seq<nat>)
    requires |a| == |b|
  {
    a != [] && (a[0] < b[0] || (a[0] == b[0] && BytesBefore(a[1..], b[1..])))
  }

  /** What ORDER BY and Python's sorted() guarantee of each selection. */
  predicate Sorted(x: Txn) {
    match x
    case Erase(users, _, subjects, ranges, rows, regions, workers) =>
      && (forall i, j | 0 <= i < j < |users| :: BytesBefore(users[i], users[j]))
      && (forall i, j | 0 <= i < j < |subjects| :: SubjectBefore(subjects[i], subjects[j]))
      && (forall r | r in ranges :: exists s | s in subjects :: s.kind == r.kind && s.id == r.subject)
      && (forall i, j | 0 <= i < j < |rows| :: RowBefore(rows[i], rows[j]))
      && Ascending(regions)
      && (forall i, j | 0 <= i < j < |workers| :: WorkerBefore(workers[i], workers[j]))
    case _ => Ascending(x.journal)
  }

  // ----- the programs -----

  function Keys(users: seq<UserId>): seq<Lock> {
    seq(|users|, i requires 0 <= i < |users| => AccountKey(BudgetLock(users[i])))
  }

  function Journal(w: WorkerName, sequences: seq<nat>): seq<Lock> {
    seq(|sequences|, i requires 0 <= i < |sequences| => Command(w.worker, w.incarnation, sequences[i]))
  }

  function Rows(rows: seq<RowName>): seq<Lock> {
    seq(|rows|, i requires 0 <= i < |rows| => Command(rows[i].worker, rows[i].incarnation, rows[i].sequence))
  }

  function Leases(regions: seq<nat>): seq<Lock> {
    seq(|regions|, i requires 0 <= i < |regions| => Lease(regions[i]))
  }

  function Connections(workers: seq<WorkerName>): seq<Lock> {
    seq(|workers|, i requires 0 <= i < |workers| => Connection(workers[i].worker, workers[i].incarnation))
  }

  function Ranges(rows: seq<AttachedRow>): seq<Lock> {
    seq(|rows|, i requires 0 <= i < |rows| => Attached(rows[i].kind, rows[i].subject, PhysicalRanges, rows[i].row))
  }

  function AttemptLocks(s: Subject): seq<Lock> {
    seq(|s.attempts|, i requires 0 <= i < |s.attempts| => Attached(s.kind, s.id, Attempts, s.attempts[i]))
  }

  /** FOR UPDATE OF session, attempt: each subject, then its attempts. */
  function SubjectLocks(subjects: seq<Subject>): seq<Lock> {
    if subjects == [] then []
    else
      var last := subjects[|subjects| - 1];
      SubjectLocks(subjects[..|subjects| - 1]) + [Entity(last.kind, last.id)] + AttemptLocks(last)
  }

  function EntityLocks(subjects: seq<Subject>): seq<Lock> {
    seq(|subjects|, i requires 0 <= i < |subjects| => Entity(subjects[i].kind, subjects[i].id))
  }

  function AttachedIf(kind: SubjectKind, subject: nat, part: AttachedTable, row: Option<nat>): seq<Lock> {
    if row.Some? then [Attached(kind, subject, part, row.value)] else []
  }

  /** lock_browser_binding: the user row, then the browser session's row. */
  function Binding(user: UserId, authSession: Option<nat>): seq<Lock> {
    [Owned(user, Users, 0)] + if authSession.Some? then [Owned(user, AuthSessions, authSession.value)] else []
  }

  function ClaimLocks(user: UserId, claim: Claim): seq<Lock> {
    match claim
    case OpenSession(s) => [Entity(SessionSubject, s)]
    case UpdateSession(s, attempt, auth) =>
      [Entity(SessionSubject, s)] + (AttachedIf(SessionSubject, s, Attempts, attempt) + Binding(user, auth))
    case CloseSession(s, attempt, auth) =>
      [Entity(SessionSubject, s)] + (AttachedIf(SessionSubject, s, Attempts, attempt) + Binding(user, auth))
    case DispatchJob(j, asset) =>
      [Entity(JobSubject, j)] + (if asset.Some? then [Owned(user, Assets, asset.value)] else [])
    case CancelJob(j, attempt) => [Entity(JobSubject, j)] + AttachedIf(JobSubject, j, Attempts, attempt)
  }

  /** Journal rows in sequence order, then the lease, then the connection. */
  function Tail(w: WorkerName, journal: seq<nat>, region: nat): seq<Lock> {
    Journal(w, journal) + [Lease(region)] + [Connection(w.worker, w.incarnation)]
  }

  function Accounts(x: Txn): seq<UserId> {
    match x
    case Erase(users, _, _, _, _, _, _) => users
    case Acknowledge(owner, _, _, _, _) => if owner.Some? then [owner.value] else []
    case _ => [x.user]
  }

  function DeliveryLocks(user: UserId, kind: SubjectKind, id: nat, authSession: Option<nat>,
                         attempt: Option<nat>, range: Option<nat>): seq<Lock> {
    [Entity(kind, id)] + (Binding(user, authSession) + AttachedIf(kind, id, Attempts, attempt)
                          + AttachedIf(kind, id, PhysicalRanges, range))
  }

  function UpdateLocks(update: Option<UpdateSubject>): seq<Lock> {
    if update.None? then []
    else
      var u := update.value;
      [Entity(SessionSubject, u.session)]
      + (AttachedIf(SessionSubject, u.session, Attempts, u.attempt)
         + AttachedIf(SessionSubject, u.session, PhysicalRanges, u.range))
  }

  /** The locks of an erasure's subject rows; a realtime erasure locks the
      session rows once more together with their attempts. */
  function ErasedSubjects(rescan: bool, subjects: seq<Subject>): seq<Lock> {
    (if rescan then EntityLocks(subjects) else []) + SubjectLocks(subjects)
  }

  /** The row locks between the account keys and the journal. */
  function SubjectPart(x: Txn): seq<Lock> {
    match x
    case Commit(user, claim, _, _, _) => ClaimLocks(user, claim)
    case DeliverSession(user, s, auth, attempt, range, _, _, _) =>
      DeliveryLocks(user, SessionSubject, s, auth, attempt, range)
    case DeliverJob(user, j, attempt, range, _, _, _) =>
      DeliveryLocks(user, JobSubject, j, None, attempt, range)
    case Acknowledge(_, update, _, _, _) => UpdateLocks(update)
    case Erase(_, rescan, subjects, ranges, _, _, _) => ErasedSubjects(rescan, subjects) + Ranges(ranges)
  }

  /** Journal rows, leases and connections; an acknowledgement looks at the
      principal of the session it publishes to after all of them. */
  function JournalPart(x: Txn): seq<Lock> {
    match x
    case Erase(_, _, _, _, rows, regions, workers) => Rows(rows) + Leases(regions) + Connections(workers)
    case Acknowledge(owner, update, w, journal, region) =>
      Tail(w, journal, region)
      + (if owner.Some? && update.Some? then Binding(owner.value, update.value.authSession) else [])
    case _ => Tail(x.worker, x.journal, x.region)
  }

  function Program(x: Txn): seq<Lock> {
    Keys(Accounts(x)) + SubjectPart(x) + JournalPart(x)
  }

  // ----- appending to a disciplined program -----

  lemma Associative(a: seq<Lock>, b: seq<Lock>, c: seq<Lock>)
    ensures a + (b + c) == a + b + c
  {
  }

  /** Every ranked lock of `p` ranks below `bound`. */
  predicate Below(p: seq<Lock>, bound: seq<int>) {
    forall l | l in p && Ranked(l) :: Less(Rank(l), bound)
  }

  lemma {:induction false} AppendOne(p: seq<Lock>, l: Lock)
    requires Disciplined(p) && (l in p || Allowed(p, l))
    ensures Disciplined(p + [l])
  {
    var q := p + [l];
    forall i: nat | i < |q|
      ensures AllowedAt(q, i)
    {
      if i < |p| {
        assert AllowedAt(p, i) && q[..i] == p[..i];
      } else {
        assert q[..i] == p;
      }
    }
  }

  /** Locks already held, or guarded by a lock already held, may come at any moment. */
  lemma {:induction false} AppendGuarded(p: seq<Lock>, q: seq<Lock>)
    requires Disciplined(p)
    requires forall l | l in q :: l in p || (!Ranked(l) && Guard(l).value in p)
    ensures Disciplined(p + q)
    decreases |q|
  {
    if q == [] {
      assert p + q == p;
    } else {
      var last := q[|q| - 1];
      assert p + q == (p + q[..|q| - 1]) + [last];
      AppendGuarded(p, q[..|q| - 1]);
      AppendOne(p + q[..|q| - 1], last);
    }
  }

  /** Ranked locks in strictly ascending order, all above what is held. */
  predicate Climbs(q: seq<Lock>) {
    (forall l | l in q :: Ranked(l)) && forall i, j | 0 <= i < j < |q| :: Less(Rank(q[i]), Rank(q[j]))
  }

  lemma {:induction false} AppendClimbing(p: seq<Lock>, q: seq<Lock>)
    requires Disciplined(p) && Climbs(q)
    requires forall l | l in q :: Below(p, Rank(l))
    ensures Disciplined(p + q)
    decreases |q|
  {
    if q == [] {
      assert p + q == p;
    } else {
      var last := q[|q| - 1];
      var front := q[..|q| - 1];
      assert p + q == (p + front) + [last];
      AppendClimbing(p, front);
      forall h | h in p + front && Ranked(h)
        ensures Less(Rank(h), Rank(last))
      {
        if h in front {
          var i :| 0 <= i < |front| && front[i] == h;
          assert q[i] == h;
        } else {
          assert Below(p, Rank(last));
        }
      }
      AppendOne(p + front, last);
    }
  }

  /** No ranked lock of `p` is of a later sort than `sort`. */
  predicate UpTo(p: seq<Lock>, sort: int) {
    forall l | l in p && Ranked(l) :: Rank(l)[0] <= sort
  }

  /** Above an earlier sort, only the ascent within the sort matters. */
  lemma AppendSort(p: seq<Lock>, q: seq<Lock>, sort: int)
    requires Disciplined(p) && UpTo(p, sort - 1)
    requires Climbs(q) && forall l | l in q :: Rank(l)[0] == sort
    ensures Disciplined(p + q) && UpTo(p + q, sort)
  {
    AppendClimbing(p, q);
  }

  // ----- account keys -----

  lemma {:induction false} BigEndianBound(b: seq<nat>)
    requires forall i | 0 <= i < |b| :: b[i] < 256
    ensures BigEndian(b) < Power256(|b|)
  {
    if b != [] {
      BigEndianBound(b[..|b| - 1]);
    }
  }

  function Power256(n: nat): nat {
    if n == 0 then 1 else 256 * Power256(n - 1)
  }

  lemma {:induction false} BigEndianMonotone(a: seq<nat>, b: seq<nat>)
    requires |a| == |b|
    requires forall i | 0 <= i < |a| :: a[i] < 256 && b[i] < 256
    requires BytesBefore(a, b)
    ensures BigEndian(a) < BigEndian(b)
  {
    var n := |a| - 1;
    BytesBeforePrefix(a, b, n);
    if a[..n] == b[..n] {
      BytesBeforeLast(a, b);
    } else {
      BigEndianMonotone(a[..n], b[..n]);
    }
  }

  lemma {:induction false} BytesBeforeLast(a: seq<nat>, b: seq<nat>)
    requires |a| == |b| && BytesBefore(a, b) && a[..|a| - 1] == b[..|b| - 1]
    ensures a[|a| - 1] < b[|b| - 1]
  {
    if |a| > 1 {
      assert a[0] == a[..|a| - 1][0] == b[..|b| - 1][0] == b[0];
      assert a[1..][..|a| - 2] == a[..|a| - 1][1..] == b[1..][..|b| - 2];
      BytesBeforeLast(a[1..], b[1..]);
    }
  }

  lemma {:induction false} BytesBeforePrefix(a: seq<nat>, b: seq<nat>, n: nat)
    requires |a| == |b| && n <= |a| && BytesBefore(a, b)
    ensures a[..n] == b[..n] || BytesBefore(a[..n], b[..n])
    decreases n
  {
    if n > 0 && a[0] == b[0] {
      BytesBeforePrefix(a[1..], b[1..], n - 1);
      assert a[..n][1..] == a[1..][..n - 1] && b[..n][1..] == b[1..][..n - 1];
      assert a[..n] == [a[0]] + a[1..][..n - 1] && b[..n] == [b[0]] + b[1..][..n - 1];
    }
  }

  /** Accounts in id order take their keys in ascending order of the key read
      as an unsigned number; equal keys are one lock. */
  lemma KeysFollowIds(a: UserId, b: UserId)
    requires BytesBefore(a, b)
    ensures BudgetLock(a) == BudgetLock(b)
            || Less(Rank(AccountKey(BudgetLock(a))), Rank(AccountKey(BudgetLock(b))))
  {
    BytesBeforePrefix(a, b, 8);
    BigEndianBound(a[..8]);
    BigEndianBound(b[..8]);
    assert Power256(8) == TWO_64 by {
      assert Power256(2) == 0x1_0000;
      assert Power256(4) == 0x1_0000_0000;
      assert Power256(6) == 0x1_0000_0000_0000;
    }
    if a[..8] != b[..8] {
      BigEndianMonotone(a[..8], b[..8]);
    }
  }

  /** The leading byte decides a big-endian number up to one unit of its own. */
  lemma {:induction false} LeadingByte(s: seq<nat>)
    requires s != [] && forall i | 0 <= i < |s| :: s[i] < 256
    ensures s[0] * Power256(|s| - 1) <= BigEndian(s) < (s[0] + 1) * Power256(|s| - 1)
  {
    var n := |s| - 1;
    if n == 0 {
      assert BigEndian(s[..0]) == 0;
    } else {
      LeadingByte(s[..n]);
      assert s[..n][0] == s[0];
      TimesPower(s[0], n - 1);
      TimesPower(s[0] + 1, n - 1);
    }
  }

  lemma TimesPower(x: nat, n: nat)
    ensures x * Power256(n) * 256 == x * Power256(n + 1)
  {
  }

  lemma NegativeFromTheTopBit(a: UserId)
    ensures BudgetLock(a) >= 0 <==> a[0] < 128
    ensures -TWO_63 <= BudgetLock(a) < TWO_63
  {
    var s := a[..8];
    LeadingByte(s);
    assert Power256(7) == 0x100_0000_0000_0000 by {
      assert Power256(3) == 0x100_0000;
      assert Power256(5) == 0x100_0000_0000;
    }
    assert s[0] == a[0];
  }

  /** The signed key PostgreSQL sees follows the id order exactly when the two
      ids do not lie on different sides of the sign bit. */
  lemma SignedKeysFollowIdsIff(a: UserId, b: UserId)
    requires BytesBefore(a, b)
    ensures BudgetLock(a) <= BudgetLock(b) <==> a[0] >= 128 || b[0] < 128
  {
    NegativeFromTheTopBit(a);
    NegativeFromTheTopBit(b);
    KeysFollowIds(a, b);
  }

  /** Two accounts in id order whose signed keys are not. */
  lemma SignedKeysDoNotFollowIds()
    ensures exists a: UserId, b: UserId :: BytesBefore(a, b) && BudgetLock(a) > BudgetLock(b)
  {
    var a: UserId := seq(16, i => 0);
    var b: UserId := seq(16, i => if i == 0 then 128 else 0);
    assert BytesBefore(a, b);
    SignedKeysFollowIdsIff(a, b);
    assert BudgetLock(a) > BudgetLock(b);
  }

  lemma {:induction false} KeysDisciplined(users: seq<UserId>)
    requires forall i, j | 0 <= i < j < |users| :: BytesBefore(users[i], users[j])
    ensures Disciplined(Keys(users)) && UpTo(Keys(users), 0)
    decreases |users|
  {
    if users != [] {
      var n := |users| - 1;
      var front := Keys(users[..n]);
      var last := AccountKey(BudgetLock(users[n]));
      KeysDisciplined(users[..n]);
      assert Keys(users) == front + [last];
      if last !in front {
        forall h | h in front
          ensures Less(Rank(h), Rank(last))
        {
          var i :| 0 <= i < n && front[i] == h;
          KeysFollowIds(users[i], users[n]);
        }
      }
      AppendOne(front, last);
    }
  }

  // ----- subjects -----

  /** The ranked locks of a subject scan are exactly its subjects' rows. */
  lemma {:induction false} SubjectEntities(subjects: seq<Subject>)
    ensures forall s | s in subjects :: Entity(s.kind, s.id) in SubjectLocks(subjects)
    ensures forall l | l in SubjectLocks(subjects) && Ranked(l) ::
              exists i | 0 <= i < |subjects| :: l == Entity(subjects[i].kind, subjects[i].id)
    decreases |subjects|
  {
    if subjects != [] {
      var n := |subjects| - 1;
      SubjectEntities(subjects[..n]);
      assert subjects == subjects[..n] + [subjects[n]];
      forall l | l in SubjectLocks(subjects) && Ranked(l)
        ensures exists i | 0 <= i < |subjects| :: l == Entity(subjects[i].kind, subjects[i].id)
      {
        if l in SubjectLocks(subjects[..n]) {
          var i :| 0 <= i < n && l == Entity(subjects[..n][i].kind, subjects[..n][i].id);
          assert l == Entity(subjects[i].kind, subjects[i].id);
        } else {
          assert l == Entity(subjects[n].kind, subjects[n].id);
        }
      }
    }
  }

  lemma {:induction false} SubjectsDisciplined(p: seq<Lock>, subjects: seq<Subject>)
    requires Disciplined(p) && UpTo(p, 0)
    requires forall i, j | 0 <= i < j < |subjects| :: SubjectBefore(subjects[i], subjects[j])
    ensures Disciplined(p + SubjectLocks(subjects)) && UpTo(p + SubjectLocks(subjects), 1)
    decreases |subjects|
  {
    SubjectEntities(subjects);
    if subjects == [] {
      assert p + SubjectLocks(subjects) == p;
    } else {
      var n := |subjects| - 1;
      var last := subjects[n];
      var front := SubjectLocks(subjects[..n]);
      var entity := Entity(last.kind, last.id);
      SubjectsDisciplined(p, subjects[..n]);
      NextSubject(p, subjects);
      AppendOne(p + front, entity);
      AppendGuarded((p + front) + [entity], AttemptLocks(last));
      Associative(p, front + [entity], AttemptLocks(last));
      Associative(p, front, [entity]);
    }
  }

  lemma NextSubject(p: seq<Lock>, subjects: seq<Subject>)
    requires UpTo(p, 0) && subjects != []
    requires forall i, j | 0 <= i < j < |subjects| :: SubjectBefore(subjects[i], subjects[j])
    ensures var n := |subjects| - 1;
            Allowed(p + SubjectLocks(subjects[..n]), Entity(subjects[n].kind, subjects[n].id))
  {
    var n := |subjects| - 1;
    var front := SubjectLocks(subjects[..n]);
    SubjectEntities(subjects[..n]);
    forall h | h in p + front && Ranked(h)
      ensures Less(Rank(h), Rank(Entity(subjects[n].kind, subjects[n].id)))
    {
      if h in front {
        var i :| 0 <= i < n && h == Entity(subjects[..n][i].kind, subjects[..n][i].id);
        assert SubjectBefore(subjects[i], subjects[n]);
      }
    }
  }

  lemma {:induction false} SubjectsHeld(p: seq<Lock>, subjects: seq<Subject>)
    requires Disciplined(p)
    requires forall s | s in subjects :: Entity(s.kind, s.id) in p
    ensures Disciplined(p + SubjectLocks(subjects))
    ensures forall l | l in SubjectLocks(subjects) && Ranked(l) :: l in p
    decreases |subjects|
  {
    if subjects == [] {
      assert p + SubjectLocks(subjects) == p;
    } else {
      var n := |subjects| - 1;
      var last := subjects[n];
      var front := SubjectLocks(subjects[..n]);
      SubjectsHeld(p, subjects[..n]);
      var more := [Entity(last.kind, last.id)] + AttemptLocks(last);
      AppendGuarded(p + front, more);
      Associative(front, [Entity(last.kind, last.id)], AttemptLocks(last));
      Associative(p, front, more);
    }
  }

  lemma EntitiesDisciplined(p: seq<Lock>, subjects: seq<Subject>)
    requires Disciplined(p) && UpTo(p, 0)
    requires forall i, j | 0 <= i < j < |subjects| :: SubjectBefore(subjects[i], subjects[j])
    ensures Disciplined(p + EntityLocks(subjects)) && UpTo(p + EntityLocks(subjects), 1)
    ensures forall s | s in subjects :: Entity(s.kind, s.id) in EntityLocks(subjects)
  {
    var q := EntityLocks(subjects);
    forall i, j | 0 <= i < j < |q|
      ensures Less(Rank(q[i]), Rank(q[j]))
    {
      assert SubjectBefore(subjects[i], subjects[j]);
    }
    AppendSort(p, q, 1);
    forall s | s in subjects
      ensures Entity(s.kind, s.id) in q
    {
      var i :| 0 <= i < |subjects| && subjects[i] == s;
      assert q[i] == Entity(s.kind, s.id);
    }
  }

  /** One subject row and the rows guarded by it or by the account key. */
  lemma OneSubject(p: seq<Lock>, entity: Lock, rest: seq<Lock>)
    requires Disciplined(p) && UpTo(p, 0) && entity.Entity?
    requires forall l | l in rest :: !Ranked(l) && (Guard(l).value == entity || Guard(l).value in p)
    ensures Disciplined(p + ([entity] + rest)) && UpTo(p + ([entity] + rest), 1)
  {
    AppendOne(p, entity);
    AppendGuarded(p + [entity], rest);
    Associative(p, [entity], rest);
  }

  lemma RowRanks(a: RowName, b: RowName)
    requires RowBefore(a, b)
    ensures Less(Rank(Command(a.worker, a.incarnation, a.sequence)), Rank(Command(b.worker, b.incarnation, b.sequence)))
  {
    var x := [2, a.worker, a.incarnation, a.sequence];
    var y := [2, b.worker, b.incarnation, b.sequence];
    assert x[1..] == [a.worker, a.incarnation, a.sequence] && y[1..] == [b.worker, b.incarnation, b.sequence];
    assert x[1..][1..] == [a.incarnation, a.sequence] && y[1..][1..] == [b.incarnation, b.sequence];
    assert x[1..][1..][1..] == [a.sequence] && y[1..][1..][1..] == [b.sequence];
    if a.worker == b.worker {
      if a.incarnation == b.incarnation {
        assert Less([a.sequence], [b.sequence]);
      }
      assert Less([a.incarnation, a.sequence], [b.incarnation, b.sequence]);
    }
    assert Less([a.worker, a.incarnation, a.sequence], [b.worker, b.incarnation, b.sequence]);
  }

  lemma RowsClimb(rows: seq<RowName>)
    requires forall i, j | 0 <= i < j < |rows| :: RowBefore(rows[i], rows[j])
    ensures Climbs(Rows(rows))
  {
    forall i, j | 0 <= i < j < |rows|
      ensures Less(Rank(Rows(rows)[i]), Rank(Rows(rows)[j]))
    {
      RowRanks(rows[i], rows[j]);
    }
  }

  lemma JournalClimbs(w: WorkerName, sequences: seq<nat>)
    requires Ascending(sequences)
    ensures Climbs(Journal(w, sequences))
  {
    var rows := seq(|sequences|, i requires 0 <= i < |sequences| => RowName(w.worker, w.incarnation, sequences[i]));
    RowsClimb(rows);
    assert Journal(w, sequences) == Rows(rows);
  }

  lemma TailDisciplined(p: seq<Lock>, w: WorkerName, journal: seq<nat>, region: nat)
    requires Disciplined(p) && UpTo(p, 1) && Ascending(journal)
    ensures Disciplined(p + Tail(w, journal, region))
  {
    JournalClimbs(w, journal);
    AppendSort(p, Journal(w, journal), 2);
    AppendSort(p + Journal(w, journal), [Lease(region)], 3);
    AppendSort(p + Journal(w, journal) + [Lease(region)], [Connection(w.worker, w.incarnation)], 4);
    assert p + Tail(w, journal, region)
        == p + Journal(w, journal) + [Lease(region)] + [Connection(w.worker, w.incarnation)];
  }

  lemma ErasedSubjectsDisciplined(p: seq<Lock>, rescan: bool, subjects: seq<Subject>)
    requires Disciplined(p) && UpTo(p, 0)
    requires forall i, j | 0 <= i < j < |subjects| :: SubjectBefore(subjects[i], subjects[j])
    ensures Disciplined(p + ErasedSubjects(rescan, subjects)) && UpTo(p + ErasedSubjects(rescan, subjects), 1)
    ensures forall s | s in subjects :: Entity(s.kind, s.id) in ErasedSubjects(rescan, subjects)
  {
    SubjectEntities(subjects);
    if rescan {
      EntitiesDisciplined(p, subjects);
      SubjectsHeld(p + EntityLocks(subjects), subjects);
      Associative(p, EntityLocks(subjects), SubjectLocks(subjects));
    } else {
      SubjectsDisciplined(p, subjects);
      assert ErasedSubjects(rescan, subjects) == SubjectLocks(subjects);
    }
  }

  lemma EraseTailDisciplined(p: seq<Lock>, x: Txn)
    requires x.Erase? && Sorted(x) && Disciplined(p) && UpTo(p, 1)
    ensures Disciplined(p + JournalPart(x))
  {
    RowsClimb(x.rows);
    AppendSort(p, Rows(x.rows), 2);
    AppendSort(p + Rows(x.rows), Leases(x.regions), 3);
    WorkersClimb(x.workers);
    AppendSort(p + Rows(x.rows) + Leases(x.regions), Connections(x.workers), 4);
    assert p + JournalPart(x) == p + Rows(x.rows) + Leases(x.regions) + Connections(x.workers);
  }

  lemma WorkersClimb(workers: seq<WorkerName>)
    requires forall i, j | 0 <= i < j < |workers| :: WorkerBefore(workers[i], workers[j])
    ensures Climbs(Connections(workers))
  {
    forall i, j | 0 <= i < j < |workers|
      ensures Less(Rank(Connections(workers)[i]), Rank(Connections(workers)[j]))
    {
      var a, b := workers[i], workers[j];
      assert WorkerBefore(a, b);
      var x := [4, a.worker, a.incarnation];
      var y := [4, b.worker, b.incarnation];
      assert x[1..] == [a.worker, a.incarnation] && y[1..] == [b.worker, b.incarnation];
      assert x[1..][1..] == [a.incarnation] && y[1..][1..] == [b.incarnation];
    }
  }

  /** A subject part of one entity: the entity first, then rows it or the
      account key guards. */
  predicate OneEntity(user: UserId, locks: seq<Lock>) {
    locks != [] && locks[0].Entity?
    && forall l | l in locks[1..] :: !Ranked(l) && Guard(l).value in [locks[0], AccountKey(BudgetLock(user))]
  }

  lemma ClaimIsOneEntity(user: UserId, claim: Claim)
    ensures OneEntity(user, ClaimLocks(user, claim))
  {
  }

  lemma DeliveryIsOneEntity(user: UserId, kind: SubjectKind, id: nat, authSession: Option<nat>,
                            attempt: Option<nat>, range: Option<nat>)
    ensures OneEntity(user, DeliveryLocks(user, kind, id, authSession, attempt, range))
  {
  }

  lemma OneEntityDisciplined(user: UserId, locks: seq<Lock>)
    requires OneEntity(user, locks)
    ensures Disciplined(Keys([user]) + locks) && UpTo(Keys([user]) + locks, 1)
  {
    KeysDisciplined([user]);
    assert Keys([user])[0] == AccountKey(BudgetLock(user));
    assert locks == [locks[0]] + locks[1..];
    OneSubject(Keys([user]), locks[0], locks[1..]);
  }

  lemma EraseSubjectsDisciplined(x: Txn)
    requires x.Erase? && Sorted(x)
    ensures Disciplined(Keys(x.users) + SubjectPart(x)) && UpTo(Keys(x.users) + SubjectPart(x), 1)
  {
    var p, q := Keys(x.users), ErasedSubjects(x.rescan, x.subjects);
    KeysDisciplined(x.users);
    ErasedSubjectsDisciplined(p, x.rescan, x.subjects);
    AppendGuarded(p + q, Ranges(x.ranges));
    Associative(p, q, Ranges(x.ranges));
  }

  lemma UpdateDisciplined(p: seq<Lock>, update: Option<UpdateSubject>)
    requires Disciplined(p) && UpTo(p, 0)
    ensures Disciplined(p + UpdateLocks(update)) && UpTo(p + UpdateLocks(update), 1)
  {
    if update.Some? {
      OneSubject(p, UpdateLocks(update)[0], UpdateLocks(update)[1..]);
    } else {
      assert p + [] == p;
    }
  }

  /** The subject rows may follow the account keys. */
  lemma SubjectPartDisciplined(x: Txn)
    requires Sorted(x)
    ensures Disciplined(Keys(Accounts(x)) + SubjectPart(x)) && UpTo(Keys(Accounts(x)) + SubjectPart(x), 1)
  {
    match x
    case Erase(_, _, _, _, _, _, _) => EraseSubjectsDisciplined(x);
    case Acknowledge(_, update, _, _, _) =>
      KeysDisciplined(Accounts(x));
      UpdateDisciplined(Keys(Accounts(x)), update);
    case Commit(user, claim, _, _, _) =>
      ClaimIsOneEntity(user, claim);
      OneEntityDisciplined(user, SubjectPart(x));
    case DeliverSession(user, s, auth, attempt, range, _, _, _) =>
      DeliveryIsOneEntity(user, SessionSubject, s, auth, attempt, range);
      OneEntityDisciplined(user, SubjectPart(x));
    case DeliverJob(user, j, attempt, range, _, _, _) =>
      DeliveryIsOneEntity(user, JobSubject, j, None, attempt, range);
      OneEntityDisciplined(user, SubjectPart(x));
  }

  /** Commit, delivery, acknowledgement and every erasure keep the discipline,
      whatever rows their statements find. */
  lemma ProgramsAreDisciplined(x: Txn)
    requires Sorted(x)
    ensures Disciplined(Program(x))
  {
    var p := Keys(Accounts(x)) + SubjectPart(x);
    SubjectPartDisciplined(x);
    match x
    case Erase(_, _, _, _, _, _, _) => EraseTailDisciplined(p, x);
    case Acknowledge(owner, update, w, journal, region) =>
      var tail := Tail(w, journal, region);
      TailDisciplined(p, w, journal, region);
      var binding := JournalPart(x)[|tail|..];
      if owner.Some? && update.Some? {
        assert (p + tail)[0] == AccountKey(BudgetLock(owner.value));
      }
      AppendGuarded(p + tail, binding);
      assert Program(x) == p + tail + binding;
    case _ => TailDisciplined(p, x.worker, x.journal, x.region);
  }

  // ----- the main results, for runs of these transactions -----

  ghost predicate OnlyJournalTransactions(steps: seq<Step>) {
    forall i | 0 <= i < |steps| && steps[i].Begin? ::
      exists x :: Sorted(x) && steps[i].program == Program(x)
  }

  /** One scheduler run: each step is taken as soon as it is possible, and a
      Begin offers a journal transaction; offers need not respect discipline. */
  ghost predicate Runs(s: System, steps: seq<Step>)
    decreases |steps|
  {
    if steps == [] then s == map[]
    else
      var last := steps[|steps| - 1];
      exists s0 :: WellFormed(s0) && Runs(s0, steps[..|steps| - 1]) && TakesStep(s0, last, s)
  }

  ghost predicate TakesStep(s0: System, step: Step, s: System)
    requires WellFormed(s0)
  {
    match step
    case Begin(t, program) => t !in s0 && s == s0[t := Transaction(program, 0)]
    case Acquire(t) => t in s0 && s0[t].taken < |s0[t].program| && !Blocked(s0, t)
                       && s == s0[t := s0[t].(taken := s0[t].taken + 1)]
    case Finish(t) => t in s0 && s == s0 - {t}
  }

  lemma {:induction false} RunsReach(s: System, steps: seq<Step>)
    requires Runs(s, steps) && OnlyJournalTransactions(steps)
    ensures Reachable(s, steps)
    decreases |steps|
  {
    if steps != [] {
      var n := |steps| - 1;
      var last := steps[n];
      var s0 :| WellFormed(s0) && Runs(s0, steps[..n]) && TakesStep(s0, last, s);
      forall i | 0 <= i < n && steps[..n][i].Begin?
        ensures exists x :: Sorted(x) && steps[..n][i].program == Program(x)
      {
        assert steps[..n][i] == steps[i];
      }
      RunsReach(s0, steps[..n]);
      if last.Begin? {
        var x :| Sorted(x) && last.program == Program(x);
        ProgramsAreDisciplined(x);
      }
      assert Enabled(s0, last) && Apply(s0, last) == s;
    }
  }

  /** No interleaving of commit, delivery, acknowledgement and erasure
      transactions, on any accounts and workers, ever deadlocks. */
  lemma JournalNeverDeadlocks(s: System, steps: seq<Step>, cycle: seq<nat>)
    requires Runs(s, steps) && OnlyJournalTransactions(steps)
    ensures WellFormed(s) && !WaitCycle(s, cycle)
    ensures s != map[] ==> exists t | t in s :: !Blocked(s, t)
  {
    RunsReach(s, steps);
    NoWaitCycle(s, steps, cycle);
    if s != map[] {
      SomeoneCanMove(s, steps);
    }
  }

  // ----- no two of them write the same rows -----

  /** The session or job rows a transaction reads or writes. */
  predicate Concerns(x: Txn, kind: SubjectKind, id: nat) {
    match x
    case Commit(_, claim, _, _, _) =>
      (match claim
       case OpenSession(s) => kind.SessionSubject? && id == s
       case UpdateSession(s, _, _) => kind.SessionSubject? && id == s
       case CloseSession(s, _, _) => kind.SessionSubject? && id == s
       case DispatchJob(j, _) => kind.JobSubject? && id == j
       case CancelJob(j, _) => kind.JobSubject? && id == j)
    case DeliverSession(_, s, _, _, _, _, _, _) => kind.SessionSubject? && id == s
    case DeliverJob(_, j, _, _, _, _, _) => kind.JobSubject? && id == j
    case Acknowledge(_, update, _, _, _) => kind.SessionSubject? && update.Some? && id == update.value.session
    case Erase(_, _, subjects, _, _, _, _) => exists s | s in subjects :: s.kind == kind && s.id == id
  }

  /** The journal rows. */
  predicate Journals(x: Txn, row: RowName) {
    match x
    case Erase(_, _, _, _, rows, _, _) => row in rows
    case _ => row.worker == x.worker.worker && row.incarnation == x.worker.incarnation && row.sequence in x.journal
  }

  predicate UsesLease(x: Txn, region: nat) {
    match x
    case Erase(_, _, _, _, _, regions, _) => region in regions
    case _ => region == x.region
  }

  predicate UsesConnection(x: Txn, w: WorkerName) {
    match x
    case Erase(_, _, _, _, _, _, workers) => w in workers
    case _ => w == x.worker
  }

  /** The browser session a transaction acts for, and the account behind it. */
  predicate ActsFor(x: Txn, user: UserId, authSession: Option<nat>) {
    match x
    case Commit(u, claim, _, _, _) =>
      u == user && (match claim
                    case UpdateSession(_, _, auth) => auth == authSession
                    case CloseSession(_, _, auth) => auth == authSession
                    case _ => false)
    case DeliverSession(u, _, auth, _, _, _, _, _) => u == user && auth == authSession
    case DeliverJob(u, _, _, _, _, _, _) => u == user && authSession.None?
    case Acknowledge(owner, update, _, _, _) =>
      owner == Some(user) && update.Some? && update.value.authSession == authSession
    case Erase(_, _, _, _, _, _, _) => false
  }

  ghost predicate UsesOwned(x: Txn, user: UserId, table: OwnedTable, row: nat) {
    match table
    case Users => row == 0 && (ActsFor(x, user, None) || exists auth :: ActsFor(x, user, Some(auth)))
    case AuthSessions => ActsFor(x, user, Some(row))
    case Assets => x.Commit? && x.user == user && x.claim.DispatchJob? && x.claim.asset == Some(row)
  }

  predicate UsesAttempt(x: Txn, kind: SubjectKind, subject: nat, row: nat) {
    match x
    case Commit(_, claim, _, _, _) =>
      Concerns(x, kind, subject) && (match claim
                                     case UpdateSession(_, attempt, _) => attempt == Some(row)
                                     case CloseSession(_, attempt, _) => attempt == Some(row)
                                     case CancelJob(_, attempt) => attempt == Some(row)
                                     case _ => false)
    case DeliverSession(_, _, _, attempt, _, _, _, _) => Concerns(x, kind, subject) && attempt == Some(row)
    case DeliverJob(_, _, attempt, _, _, _, _) => Concerns(x, kind, subject) && attempt == Some(row)
    case Acknowledge(_, update, _, _, _) => Concerns(x, kind, subject) && update.value.attempt == Some(row)
    case Erase(_, _, subjects, _, _, _, _) =>
      exists s | s in subjects :: s.kind == kind && s.id == subject && row in s.attempts
  }

  predicate UsesRange(x: Txn, kind: SubjectKind, subject: nat, row: nat) {
    match x
    case Commit(_, _, _, _, _) => false
    case DeliverSession(_, _, _, _, range, _, _, _) => Concerns(x, kind, subject) && range == Some(row)
    case DeliverJob(_, _, _, range, _, _, _) => Concerns(x, kind, subject) && range == Some(row)
    case Acknowledge(_, update, _, _, _) => Concerns(x, kind, subject) && update.value.range == Some(row)
    case Erase(_, _, _, ranges, _, _, _) => AttachedRow(kind, subject, row) in ranges
  }

  /** What must not change under a transaction while it runs. */
  ghost predicate Needs(x: Txn, l: Lock) {
    match l
    case AccountKey(key) => exists u | u in Accounts(x) :: BudgetLock(u) == key
    case Entity(kind, id) => Concerns(x, kind, id)
    case Command(w, i, s) => Journals(x, RowName(w, i, s))
    case Lease(r) => UsesLease(x, r)
    case Connection(w, i) => UsesConnection(x, WorkerName(w, i))
    case Owned(user, table, row) => UsesOwned(x, user, table, row)
    case Attached(kind, subject, part, row) =>
      if part.Attempts? then UsesAttempt(x, kind, subject, row) else UsesRange(x, kind, subject, row)
  }

  lemma OwnedListed(x: Txn, user: UserId, table: OwnedTable, row: nat)
    requires UsesOwned(x, user, table, row)
    ensures Owned(user, table, row) in SubjectPart(x) || Owned(user, table, row) in JournalPart(x)
  {
    match x
    case Commit(_, claim, _, _, _) =>
      match claim {
        case OpenSession(_) =>
        case UpdateSession(_, _, auth) => assert Owned(user, table, row) in Binding(user, auth);
        case CloseSession(_, _, auth) => assert Owned(user, table, row) in Binding(user, auth);
        case DispatchJob(_, asset) => assert Owned(user, table, row) in [Owned(user, Assets, asset.value)];
        case CancelJob(_, _) =>
      }
    case DeliverSession(_, _, auth, _, _, _, _, _) => assert Owned(user, table, row) in Binding(user, auth);
    case DeliverJob(_, _, _, _, _, _, _) => assert Owned(user, table, row) in Binding(user, None);
    case Acknowledge(owner, update, _, _, _) =>
      assert Owned(user, table, row) in Binding(user, update.value.authSession);
    case Erase(_, _, _, _, _, _, _) =>
  }

  lemma {:induction false} AttemptsListed(subjects: seq<Subject>, s: Subject, row: nat)
    requires s in subjects && row in s.attempts
    ensures Attached(s.kind, s.id, Attempts, row) in SubjectLocks(subjects)
    decreases |subjects|
  {
    var n := |subjects| - 1;
    if s == subjects[n] {
      var i :| 0 <= i < |s.attempts| && s.attempts[i] == row;
      assert AttemptLocks(s)[i] == Attached(s.kind, s.id, Attempts, row);
    } else {
      assert subjects == subjects[..n] + [subjects[n]];
      AttemptsListed(subjects[..n], s, row);
    }
  }

  lemma AttemptListed(x: Txn, kind: SubjectKind, subject: nat, row: nat)
    requires UsesAttempt(x, kind, subject, row)
    ensures Attached(kind, subject, Attempts, row) in SubjectPart(x)
  {
    var l := Attached(kind, subject, Attempts, row);
    if x.Erase? {
      var s :| s in x.subjects && s.kind == kind && s.id == subject && row in s.attempts;
      AttemptsListed(x.subjects, s, row);
      assert l in ErasedSubjects(x.rescan, x.subjects);
    } else {
      assert l in AttachedIf(kind, subject, Attempts, Some(row));
    }
  }

  lemma RangeListed(x: Txn, kind: SubjectKind, subject: nat, row: nat)
    requires UsesRange(x, kind, subject, row)
    ensures Attached(kind, subject, PhysicalRanges, row) in SubjectPart(x)
  {
    var l := Attached(kind, subject, PhysicalRanges, row);
    if x.Erase? {
      var i :| 0 <= i < |x.ranges| && x.ranges[i] == AttachedRow(kind, subject, row);
      assert Ranges(x.ranges)[i] == l;
    } else {
      assert l in AttachedIf(kind, subject, PhysicalRanges, Some(row));
    }
  }

  lemma KeysListed(users: seq<UserId>, key: int)
    ensures AccountKey(key) in Keys(users) <==> exists u | u in users :: BudgetLock(u) == key
  {
    if exists u | u in users :: BudgetLock(u) == key {
      var u :| u in users && BudgetLock(u) == key;
      var i :| 0 <= i < |users| && users[i] == u;
      assert Keys(users)[i] == AccountKey(key);
    }
  }

  lemma SubjectListed(x: Txn, kind: SubjectKind, id: nat)
    requires Concerns(x, kind, id)
    ensures Entity(kind, id) in SubjectPart(x)
  {
    match x
    case Commit(user, claim, _, _, _) => assert ClaimLocks(user, claim)[0] == Entity(kind, id);
    case DeliverSession(user, s, auth, attempt, range, _, _, _) =>
      assert DeliveryLocks(user, kind, id, auth, attempt, range)[0] == Entity(kind, id);
    case DeliverJob(user, j, attempt, range, _, _, _) =>
      assert DeliveryLocks(user, kind, id, None, attempt, range)[0] == Entity(kind, id);
    case Acknowledge(_, update, _, _, _) => assert UpdateLocks(update)[0] == Entity(kind, id);
    case Erase(_, rescan, subjects, ranges, _, _, _) =>
      SubjectEntities(subjects);
      assert Entity(kind, id) in SubjectLocks(subjects);
      assert Entity(kind, id) in ErasedSubjects(rescan, subjects);
  }

  lemma JournalRowListed(x: Txn, row: RowName)
    requires Journals(x, row)
    ensures Command(row.worker, row.incarnation, row.sequence) in JournalPart(x)
  {
    var l := Command(row.worker, row.incarnation, row.sequence);
    if x.Erase? {
      var i :| 0 <= i < |x.rows| && x.rows[i] == row;
      assert Rows(x.rows)[i] == l;
    } else {
      var i :| 0 <= i < |x.journal| && x.journal[i] == row.sequence;
      assert Journal(x.worker, x.journal)[i] == l;
      assert l in Tail(x.worker, x.journal, x.region);
    }
  }

  lemma LeaseListed(x: Txn, region: nat)
    requires UsesLease(x, region)
    ensures Lease(region) in JournalPart(x)
  {
    if x.Erase? {
      var i :| 0 <= i < |x.regions| && x.regions[i] == region;
      assert Leases(x.regions)[i] == Lease(region);
    } else {
      assert Lease(region) in Tail(x.worker, x.journal, x.region);
    }
  }

  lemma ConnectionListed(x: Txn, w: WorkerName)
    requires UsesConnection(x, w)
    ensures Connection(w.worker, w.incarnation) in JournalPart(x)
  {
    if x.Erase? {
      var i :| 0 <= i < |x.workers| && x.workers[i] == w;
      assert Connections(x.workers)[i] == Connection(w.worker, w.incarnation);
    } else {
      assert Connection(w.worker, w.incarnation) in Tail(x.worker, x.journal, x.region);
    }
  }

  /** Every program asks for all its transaction needs. */
  lemma ProgramsAskForAll(x: Txn, l: Lock)
    requires Needs(x, l)
    ensures l in Program(x)
  {
    match l
    case AccountKey(key) => KeysListed(Accounts(x), key);
    case Entity(kind, id) => SubjectListed(x, kind, id);
    case Command(w, i, s) => JournalRowListed(x, RowName(w, i, s));
    case Lease(r) => LeaseListed(x, r);
    case Connection(w, i) => ConnectionListed(x, WorkerName(w, i));
    case Owned(user, table, row) => OwnedListed(x, user, table, row);
    case Attached(kind, subject, part, row) =>
      if part.Attempts? {
        AttemptListed(x, kind, subject, row);
      } else {
        RangeListed(x, kind, subject, row);
      }
  }

  /** What a program asks for among its first `n` locks is held from then on. */
  lemma HeldFromThereOn(x: Transaction, n: nat, l: Lock)
    requires x.taken <= |x.program| && n <= |x.program| && l in x.program[..n]
    ensures x.taken >= n ==> l in Held(x)
  {
    var i :| 0 <= i < n && x.program[..n][i] == l;
    if x.taken >= n {
      assert Held(x)[i] == l;
    }
  }

  /** While a transaction has all its locks, no other has come as far that shares
      an account, a session or job, a journal row, a lease or a connection with
      it, nor does any other hold what they share. */
  lemma WritersAreAlone(s: System, steps: seq<Step>, t: nat, u: nat, x: Txn, y: Txn, l: Lock)
    requires Runs(s, steps) && OnlyJournalTransactions(steps) && t in s && u in s && t != u
    requires s[t] == Transaction(Program(x), |Program(x)|) && s[u].program == Program(y)
    requires Needs(x, l) && Needs(y, l)
    ensures WellFormed(s) && l in Held(s[t]) && l !in Held(s[u])
    ensures s[u].taken < |Program(y)|
  {
    RunsReach(s, steps);
    ReachableInv(s, steps);
    ProgramsAskForAll(x, l);
    ProgramsAskForAll(y, l);
    assert Program(x)[..|Program(x)|] == Program(x) && Program(y)[..|Program(y)|] == Program(y);
    HeldFromThereOn(s[t], |Program(x)|, l);
    HeldFromThereOn(s[u], |Program(y)|, l);
    assert Apart(s[t], s[u]);
  }

  lemma KeyIsHeld(a: Transaction, x: Txn, user: UserId)
    requires a.program == Program(x) && a.taken <= |a.program| && user in Accounts(x)
    ensures a.taken >= |Accounts(x)| ==> AccountKey(BudgetLock(user)) in Held(a)
  {
    KeysListed(Accounts(x), BudgetLock(user));
    assert Program(x)[..|Accounts(x)|] == Keys(Accounts(x));
    HeldFromThereOn(a, |Accounts(x)|, AccountKey(BudgetLock(user)));
  }

  /** Past its account keys a transaction has its accounts to itself. */
  lemma AccountsAreAlone(s: System, steps: seq<Step>, t: nat, u: nat, x: Txn, y: Txn, user: UserId)
    requires Runs(s, steps) && OnlyJournalTransactions(steps) && t in s && u in s && t != u
    requires s[t].program == Program(x) && s[u].program == Program(y)
    requires user in Accounts(x) && user in Accounts(y)
    requires s[t].taken >= |Accounts(x)|
    ensures s[u].taken < |Accounts(y)|
  {
    RunsReach(s, steps);
    ReachableInv(s, steps);
    KeyIsHeld(s[t], x, user);
    KeyIsHeld(s[u], y, user);
    assert Apart(s[t], s[u]);
  }

  predicate NoKeys(p: seq<Lock>) {
    forall l | l in p :: !l.AccountKey?
  }

  lemma NoKeysInBoth(a: seq<Lock>, b: seq<Lock>)
    requires NoKeys(a) && NoKeys(b)
    ensures NoKeys(a + b)
  {
  }

  lemma NoKeysInTail(w: WorkerName, journal: seq<nat>, region: nat)
    ensures NoKeys(Tail(w, journal, region))
  {
  }

  lemma NoKeysInErasure(rescan: bool, subjects: seq<Subject>, ranges: seq<AttachedRow>)
    ensures NoKeys(ErasedSubjects(rescan, subjects) + Ranges(ranges))
  {
    OnlySubjects(subjects);
    NoKeysInBoth(ErasedSubjects(rescan, subjects), Ranges(ranges));
  }

  lemma NoKeysInSubjectPart(x: Txn)
    ensures NoKeys(SubjectPart(x))
  {
    match x
    case Commit(_, _, _, _, _) =>
    case DeliverSession(_, _, _, _, _, _, _, _) =>
    case DeliverJob(_, _, _, _, _, _, _) =>
    case Acknowledge(_, _, _, _, _) =>
    case Erase(_, rescan, subjects, ranges, _, _, _) => NoKeysInErasure(rescan, subjects, ranges);
  }

  lemma NoKeysInJournalPart(x: Txn)
    ensures NoKeys(JournalPart(x))
  {
    match x
    case Erase(_, _, _, _, rows, regions, workers) =>
      NoKeysInBoth(Rows(rows), Leases(regions));
      NoKeysInBoth(Rows(rows) + Leases(regions), Connections(workers));
    case Acknowledge(owner, update, w, journal, region) =>
      NoKeysInTail(w, journal, region);
      if owner.Some? && update.Some? {
        NoKeysInBoth(Tail(w, journal, region), Binding(owner.value, update.value.authSession));
      }
    case _ => NoKeysInTail(x.worker, x.journal, x.region);
  }

  /** Whatever a transaction holds while it waits for an account key is account
      keys too, of accounts before that one; so a transaction of one account
      holds nothing then, and only the collapse ever holds some. */
  lemma KeyWaitersHoldOnlyKeys(x: Txn, n: nat)
    requires n < |Program(x)| && Program(x)[n].AccountKey?
    ensures n < |Accounts(x)| && Program(x)[n] == AccountKey(BudgetLock(Accounts(x)[n]))
    ensures forall i | 0 <= i < n :: Program(x)[i] == AccountKey(BudgetLock(Accounts(x)[i]))
    ensures |Accounts(x)| <= 1 ==> n == 0
  {
    NoKeysInSubjectPart(x);
    NoKeysInJournalPart(x);
    if n >= |Keys(Accounts(x))| {
      PartsOf(Keys(Accounts(x)), SubjectPart(x), JournalPart(x), n);
    }
  }

  lemma PartsOf(a: seq<Lock>, b: seq<Lock>, c: seq<Lock>, n: nat)
    requires n < |a + b + c| && n >= |a|
    ensures (a + b + c)[n] in b || (a + b + c)[n] in c
  {
  }

  lemma {:induction false} OnlySubjects(subjects: seq<Subject>)
    ensures NoKeys(SubjectLocks(subjects))
  {
    if subjects != [] {
      OnlySubjects(subjects[..|subjects| - 1]);
    }
  }
}

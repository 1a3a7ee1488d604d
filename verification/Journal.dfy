/** One worker connection's command journal: the rows of worker_commands for one
    (worker_id, incarnation) and the worker_connections columns they move with.

    Each function below is one transaction; a refused transaction rolls back, so
    it is an Err or leaves the journal as it was. SHA-256 is taken to be
    injective, so an identity hash is the identity itself, and AES-GCM to be
    ideal, so a stored body is the command itself, readable exactly while the key
    ring still holds its key version. */
module Journal {
  import opened Wrappers

  const MAX_SEQUENCE := 0x7fff_ffff_ffff_ffff
  const MAX_RETAINED_COMMANDS := 256
  const MAX_PENDING_BYTES := 4 * 1024 * 1024
  const MAX_SMALL_COMMAND_BYTES := 16 * 1024
  const MAX_PARAMETER_COMMAND_BYTES := 1024 * 1024

  datatype Kind = OpenSession | UpdateSession | CloseSession | DispatchJob | CancelJob

  predicate IsSessionKind(kind: Kind) {
    kind.OpenSession? || kind.UpdateSession? || kind.CloseSession?
  }

  function SizeLimit(kind: Kind): nat {
    if kind.DispatchJob? || kind.OpenSession? || kind.UpdateSession?
    then MAX_PARAMETER_COMMAND_BYTES else MAX_SMALL_COMMAND_BYTES
  }

  /** The refusal codes that consume a command, and every other code. */
  datatype Code =
    | AuthorityExpired | AuthorityMismatch | AttemptStale | RevisionStale
    | UnsupportedControl | OutOfMemory | ModelUnavailable | InvalidParams
    | CapacityUnavailable | DependencyUnavailable | CheckpointIncompatible
    | Retryable(name: nat)

  datatype Status = Accepted | Refused(code: Code)

  predicate Consumes(status: Status) {
    status.Accepted? || !status.code.Retryable?
  }

  datatype Common = Common(
    workerId: nat, incarnation: nat, region: nat, ownerEpoch: nat, leaseId: nat,
    leaseExpiresAt: nat, grantNonce: nat, sequence: nat, commandId: nat, bodyHash: nat)

  datatype Subject =
    | SessionSubject(sessionId: nat, attemptId: nat, generation: nat)
    | JobSubject(jobId: nat, dispatchSequence: nat)

  datatype Identity = Identity(kind: Kind, common: Common, subject: Subject)

  datatype Command = Command(identity: Identity, model: nat, params: nat, paramsRevision: nat)

  datatype Ack = Ack(common: Common, subject: Subject, status: Status)

  /** The fields an acknowledgement must repeat; None when some are missing. */
  function Projection(kind: Kind, common: Common, subject: Subject): Option<Identity> {
    if IsSessionKind(kind) == subject.SessionSubject? then Some(Identity(kind, common, subject)) else None
  }

  function SubjectId(subject: Subject): nat {
    if subject.SessionSubject? then subject.sessionId else subject.jobId
  }

  function SubjectSequence(subject: Subject): nat {
    if subject.SessionSubject? then subject.generation else subject.dispatchSequence
  }

  /** The field-by-field comparison against the decrypted body. */
  predicate AckMatches(command: Command, ack: Ack) {
    var c, a := command.identity.common, ack.common;
    && a.workerId == c.workerId && a.incarnation == c.incarnation && a.region == c.region
    && a.ownerEpoch == c.ownerEpoch && a.leaseId == c.leaseId && a.grantNonce == c.grantNonce
    && a.sequence == c.sequence && a.commandId == c.commandId && a.bodyHash == c.bodyHash
    && ack.subject == command.identity.subject
    && a.leaseExpiresAt == c.leaseExpiresAt
  }

  datatype RowState = Pending | Erased | Acknowledged

  datatype Row = Row(
    commandId: nat, kind: Kind, bodyHash: nat, account: Option<nat>,
    subjectId: nat, subjectSequence: nat, identity: Option<Identity>,
    keyVersion: Option<nat>, body: Option<Command>, bytes: nat, state: RowState,
    acknowledgedAt: bool, ackStatus: Option<Status>, expected: Option<nat>, ackBody: Option<Ack>)

  /** An acknowledged row whose stored acknowledgement still proves itself. */
  predicate KnownAcknowledged(row: Row) {
    && row.state == Acknowledged && row.identity.Some? && row.acknowledgedAt
    && row.expected.None? && row.ackBody.Some?
    && var ack := row.ackBody.value;
    && row.ackStatus == Some(ack.status)
    && Consumes(ack.status)
    && ack.common.commandId == row.commandId && ack.common.bodyHash == row.bodyHash
    && Projection(row.kind, ack.common, ack.subject) == row.identity
  }

  datatype Connection = Connection(
    transportOwner: nat, closed: bool, ready: bool, floor: nat, next: nat, rows: map<nat, Row>)

  function NewConnection(transportOwner: nat): Connection {
    Connection(transportOwner, false, true, 0, 1, map[])
  }

  // ----- the floor -----

  /** Raise the floor over rows whose acknowledgement is proved. */
  function Advance(rows: map<nat, Row>, floor: nat, next: nat): (f: nat)
    ensures floor <= f
    ensures floor < next ==> f < next
    ensures forall k | floor < k <= f :: k in rows && KnownAcknowledged(rows[k])
    ensures f + 1 < next && f + 1 in rows ==> !KnownAcknowledged(rows[f + 1])
    decreases if floor < next then next - floor else 0
  {
    if floor + 1 < next && floor + 1 in rows && KnownAcknowledged(rows[floor + 1])
    then Advance(rows, floor + 1, next) else floor
  }

  /** DELETE ... WHERE command_sequence <= floor AND state = 'acknowledged'. */
  function Prune(rows: map<nat, Row>, floor: nat): map<nat, Row> {
    rows - set k | k in rows && k <= floor && rows[k].state == Acknowledged
  }

  function Settle(c: Connection): Connection {
    var f := Advance(c.rows, c.floor, c.next);
    if f > c.floor then c.(floor := f, rows := Prune(c.rows, f)) else c
  }

  // ----- bounds -----

  function Weight(rows: map<nat, Row>, k: nat): nat {
    if k in rows && rows[k].state == Pending then rows[k].bytes else 0
  }

  /** The pending bytes of rows below `hi`. */
  function PendingBytes(rows: map<nat, Row>, hi: nat): nat {
    if hi == 0 then 0 else PendingBytes(rows, hi - 1) + Weight(rows, hi - 1)
  }

  lemma {:induction false} PendingBytesShrink(rows: map<nat, Row>, rows': map<nat, Row>, hi: nat)
    requires forall k: nat | k < hi :: Weight(rows', k) <= Weight(rows, k)
    ensures PendingBytes(rows', hi) <= PendingBytes(rows, hi)
  {
    if hi > 0 {
      PendingBytesShrink(rows, rows', hi - 1);
    }
  }

  // ----- commit -----

  /** What a caller offers: everything but the sequence the journal allots. */
  datatype Draft = Draft(
    kind: Kind, common: Common, subject: Subject, account: nat,
    model: nat, params: nat, paramsRevision: nat, bytes: nat)

  /** Every way a commit is refused, named after its message. */
  datatype Refusal =
    | Exhausted | SubjectStale | NoWorkGrant | LeaseUnavailable | AllocationChanged | CancelOwnerStale
    | NonceStale | AuthorityStale | LeaseExpired | GrantExpired | NoAckIdentity | Malformed | TooLarge
    | JournalFull | KeyUnavailable

  /** What the transaction finds outside the journal, in the order it looks:
      the next sequence before any lock, whether its subject is still the one
      the command was built for, the connection as first read, the lease, and
      the locked connection's grant. */
  datatype Seen = Seen(
    hint: nat, subject: bool, lease: bool, transport: nat, grantReady: bool, unmoved: bool,
    cancelOwner: bool, nonce: bool, epoch: bool, leaseLive: bool, grantLive: bool, schema: bool)

  function BodyOf(draft: Draft, sequence: nat): Command {
    Command(Identity(draft.kind, draft.common.(sequence := sequence), draft.subject),
            draft.model, draft.params, draft.paramsRevision)
  }

  function PendingRow(draft: Draft, sequence: nat, keyVersion: nat): Row {
    var body := BodyOf(draft, sequence);
    Row(draft.common.commandId, draft.kind, draft.common.bodyHash, Some(draft.account),
        SubjectId(draft.subject), SubjectSequence(draft.subject), Some(body.identity),
        Some(keyVersion), Some(body), draft.bytes, Pending, false, None, None, None)
  }

  /** The checks before a sequence is allotted, in their order. */
  function Gate(c: Connection, seen: Seen): Option<Refusal> {
    if seen.hint >= MAX_SEQUENCE then Some(Exhausted)
    else if !seen.subject then Some(SubjectStale)
    else if c.closed || !c.ready then Some(NoWorkGrant)
    else if !seen.lease then Some(LeaseUnavailable)
    else if c.transportOwner != seen.transport || !seen.grantReady then Some(NoWorkGrant)
    else if !seen.unmoved then Some(AllocationChanged)
    else if !seen.cancelOwner then Some(CancelOwnerStale)
    else if !seen.nonce then Some(NonceStale)
    else if !seen.epoch then Some(AuthorityStale)
    else if !seen.leaseLive then Some(LeaseExpired)
    else if !seen.grantLive then Some(GrantExpired)
    else if c.next >= MAX_SEQUENCE then Some(Exhausted)
    else None
  }

  /** commit_command on the journal; `key` is the ring's write version, if it can
      be used. */
  function Commit(c: Connection, draft: Draft, seen: Seen, key: Option<nat>): Result<Connection, Refusal> {
    if Gate(c, seen).Some? then Err(Gate(c, seen).value)
    else if Projection(draft.kind, draft.common, draft.subject).None? then Err(NoAckIdentity)
    else if !seen.schema then Err(Malformed)
    else if draft.bytes > SizeLimit(draft.kind) then Err(TooLarge)
    else
      var s := Settle(c);
      if |s.rows| >= MAX_RETAINED_COMMANDS || PendingBytes(c.rows, c.next) + draft.bytes > MAX_PENDING_BYTES
      then Err(JournalFull)
      else if key.None? then Err(KeyUnavailable)
      else Ok(s.(next := c.next + 1, rows := s.rows[c.next := PendingRow(draft, c.next, key.value)]))
  }

  // ----- acknowledge -----

  function Acked(row: Row, ack: Ack): Row {
    row.(state := Acknowledged, body := None, keyVersion := None, bytes := 0, acknowledgedAt := true,
         ackStatus := Some(ack.status), expected := None, ackBody := Some(ack))
  }

  predicate Names(row: Row, ack: Ack) {
    && row.commandId == ack.common.commandId && row.bodyHash == ack.common.bodyHash
    && row.identity.Some? && Projection(row.kind, ack.common, ack.subject) == row.identity
  }

  predicate Readable(row: Row, ring: set<nat>) {
    row.keyVersion.Some? && row.keyVersion.value in ring
  }

  /** The row after this acknowledgement, or None when it is turned away. */
  function AckRow(row: Row, ack: Ack, ring: set<nat>): Option<Row> {
    if !Names(row, ack) then None
    else match row.state
      case Acknowledged => if KnownAcknowledged(row) && row.ackBody == Some(ack) then Some(row) else None
      case Erased => Some(Acked(row, ack))
      case Pending =>
        if row.account.None? then None
        else if !Readable(row, ring) then Some(Acked(row, ack))
        else if row.body.Some? && AckMatches(row.body.value, ack) then Some(Acked(row, ack))
        else None
  }

  /** Whether the acknowledgement is recorded at all. */
  predicate Records(c: Connection, ack: Ack, ring: set<nat>, transport: nat) {
    && Consumes(ack.status) && c.transportOwner == transport
    && ack.common.sequence in c.rows
    && AckRow(c.rows[ack.common.sequence], ack, ring).Some?
  }

  /** An unreadable pending command ends the connection with its acknowledgement. */
  predicate LostKey(row: Row, ring: set<nat>) {
    row.state == Pending && !Readable(row, ring)
  }

  function Mark(c: Connection, ack: Ack, ring: set<nat>, transport: nat): Connection
    requires Records(c, ack, ring, transport)
  {
    var k := ack.common.sequence;
    var lost := LostKey(c.rows[k], ring);
    c.(rows := c.rows[k := AckRow(c.rows[k], ack, ring).value],
       closed := c.closed || lost, ready := c.ready && !lost)
  }

  function Acknowledge(c: Connection, ack: Ack, ring: set<nat>, transport: nat): Connection {
    if Records(c, ack, ring, transport) then Settle(Mark(c, ack, ring, transport)) else c
  }

  // ----- erase and deliver -----

  function ErasedRow(row: Row): Row {
    row.(state := Erased, body := None, keyVersion := None, bytes := 0, acknowledgedAt := false,
         ackStatus := None, expected := None, ackBody := None)
  }

  function EraseRows(rows: map<nat, Row>, selected: set<nat>): map<nat, Row> {
    map k | k in rows :: if k in selected && rows[k].state == Pending then ErasedRow(rows[k]) else rows[k]
  }

  predicate HasPending(rows: map<nat, Row>, selected: set<nat>) {
    exists k | k in selected :: k in rows && rows[k].state == Pending
  }

  /** Account, realtime and subject erasure on one connection: `fence` says one
      of the erased subjects' live attempts runs on it. */
  function Erase(c: Connection, selected: set<nat>, fence: bool): Connection {
    if fence || HasPending(c.rows, selected)
    then c.(rows := EraseRows(c.rows, selected), closed := true)
    else c
  }

  /** A physically complete report erases its own pending command and fences nothing. */
  function EraseReported(c: Connection, k: nat): Connection {
    c.(rows := EraseRows(c.rows, {k}))
  }

  /** register_delivery admits exactly the pending head of an open connection. */
  predicate Deliverable(c: Connection, k: nat, authority: bool) {
    && authority && !c.closed && c.ready
    && k in c.rows && c.rows[k].state == Pending && k == c.floor + 1
  }

  // ----- what every reachable journal satisfies -----

  predicate RowFits(k: nat, row: Row) {
    && row.identity.Some?
    && var id := row.identity.value;
    && id.kind == row.kind && id.common.sequence == k && id.common.commandId == row.commandId
    && id.common.bodyHash == row.bodyHash
    && IsSessionKind(id.kind) == id.subject.SessionSubject?
    && SubjectId(id.subject) == row.subjectId && SubjectSequence(id.subject) == row.subjectSequence
    && row.account.Some?
    && (row.state == Pending ==> row.body.Some? && row.body.value.identity == id && row.keyVersion.Some?)
    && (row.state != Pending ==> row.body.None? && row.bytes == 0)
    && (row.state == Acknowledged ==> KnownAcknowledged(row))
  }

  ghost predicate Contiguous(rows: map<nat, Row>, floor: nat, next: nat) {
    forall k: nat :: k in rows <==> floor < k < next
  }

  predicate AllFit(rows: map<nat, Row>) {
    forall k | k in rows :: RowFits(k, rows[k])
  }

  predicate FloorIsMaximal(rows: map<nat, Row>, floor: nat) {
    floor + 1 in rows ==> rows[floor + 1].state != Acknowledged
  }

  ghost predicate Sound(rows: map<nat, Row>, floor: nat, next: nat) {
    && floor < next
    && Contiguous(rows, floor, next)
    && AllFit(rows)
    && |rows| <= MAX_RETAINED_COMMANDS
    && PendingBytes(rows, next) <= MAX_PENDING_BYTES
  }

  ghost predicate Valid(c: Connection) {
    Sound(c.rows, c.floor, c.next) && FloorIsMaximal(c.rows, c.floor)
  }

  /** The same, but for the floor, which Settle still has to raise. */
  ghost predicate NearlyValid(c: Connection) {
    Sound(c.rows, c.floor, c.next)
  }

  lemma FewerRows(rows: map<nat, Row>, rows': map<nat, Row>)
    requires rows'.Keys <= rows.Keys
    ensures |rows'| <= |rows|
  {
    CardinalityGrows(rows'.Keys, rows.Keys);
    assert |rows'.Keys| == |rows'| && |rows.Keys| == |rows|;
  }

  lemma {:induction false} CardinalityGrows(a: set<nat>, b: set<nat>)
    requires a <= b
    ensures |a| <= |b|
  {
    assert b == a + (b - a);
  }

  lemma KnownIsAcknowledged(rows: map<nat, Row>, k: nat)
    requires AllFit(rows) && k in rows
    ensures KnownAcknowledged(rows[k]) <==> rows[k].state == Acknowledged
  {
    assert RowFits(k, rows[k]);
  }

  lemma PruneKeepsExactly(rows: map<nat, Row>, floor: nat, f: nat, next: nat)
    requires floor <= f < next && f == Advance(rows, floor, next)
    requires Contiguous(rows, floor, next)
    ensures Contiguous(Prune(rows, f), f, next)
  {
    forall k: nat | k in rows && k <= f
      ensures k !in Prune(rows, f)
    {
      assert KnownAcknowledged(rows[k]);
    }
  }

  lemma PruneKeepsBounds(rows: map<nat, Row>, f: nat, hi: nat)
    requires AllFit(rows)
    ensures AllFit(Prune(rows, f)) && |Prune(rows, f)| <= |rows|
    ensures PendingBytes(Prune(rows, f), hi) <= PendingBytes(rows, hi)
  {
    FewerRows(rows, Prune(rows, f));
    PendingBytesShrink(rows, Prune(rows, f), hi);
  }

  lemma PruneIsSound(rows: map<nat, Row>, floor: nat, next: nat)
    requires Sound(rows, floor, next)
    ensures Sound(Prune(rows, Advance(rows, floor, next)), Advance(rows, floor, next), next)
  {
    PruneKeepsExactly(rows, floor, Advance(rows, floor, next), next);
    PruneKeepsBounds(rows, Advance(rows, floor, next), next);
  }

  lemma AdvanceIsMaximal(rows: map<nat, Row>, floor: nat, next: nat)
    requires Sound(rows, floor, next)
    ensures FloorIsMaximal(rows, Advance(rows, floor, next))
  {
    var f := Advance(rows, floor, next);
    if f + 1 in rows {
      KnownIsAcknowledged(rows, f + 1);
    }
  }

  lemma SettledRows(rows: map<nat, Row>, floor: nat, next: nat)
    requires Sound(rows, floor, next)
    ensures var f := Advance(rows, floor, next);
      && Sound(Prune(rows, f), f, next) && FloorIsMaximal(Prune(rows, f), f)
      && (f == floor ==> FloorIsMaximal(rows, floor))
  {
    AdvanceIsMaximal(rows, floor, next);
    PruneIsSound(rows, floor, next);
  }

  /** Settling leaves exactly the rows above the new floor. */
  lemma SettleKeeps(c: Connection)
    requires NearlyValid(c)
    ensures Valid(Settle(c))
    ensures Settle(c) == c.(floor := Settle(c).floor, rows := Settle(c).rows)
    ensures forall k | k in Settle(c).rows :: k in c.rows && Settle(c).rows[k] == c.rows[k]
    ensures Settle(c).floor == Advance(c.rows, c.floor, c.next)
  {
    SettledRows(c.rows, c.floor, c.next);
  }

  lemma UnknownSurvives(c: Connection, k: nat)
    requires NearlyValid(c) && k in c.rows && !KnownAcknowledged(c.rows[k])
    ensures c.floor <= Settle(c).floor < k && k in Settle(c).rows && Settle(c).rows[k] == c.rows[k]
  {
    KnownIsAcknowledged(c.rows, k);
  }

  /** Settling takes away only acknowledged rows. */
  lemma SettleLeavesOthers(m: Connection, k: nat)
    requires NearlyValid(m)
    ensures Settle(m).transportOwner == m.transportOwner
    ensures k in m.rows && m.rows[k].state != Acknowledged ==> k in Settle(m).rows
    ensures k in Settle(m).rows ==> k in m.rows && Settle(m).rows[k] == m.rows[k]
  {
    SettleKeeps(m);
    if k in m.rows && m.rows[k].state != Acknowledged {
      UnknownSurvives(m, k);
    }
  }

  /** From a reachable journal the catch-up loop of a commit raises nothing. */
  lemma NothingToCatchUp(c: Connection)
    requires Valid(c)
    ensures Settle(c) == c
  {
    if c.floor + 1 in c.rows {
      KnownIsAcknowledged(c.rows, c.floor + 1);
    }
  }

  lemma PendingRowFits(draft: Draft, sequence: nat, keyVersion: nat)
    requires Projection(draft.kind, draft.common, draft.subject).Some?
    ensures RowFits(sequence, PendingRow(draft, sequence, keyVersion))
  {
  }

  /** From a settled journal a commit appends one row and does nothing else. */
  lemma CommitShape(c: Connection, draft: Draft, seen: Seen, key: Option<nat>)
    requires Settle(c) == c && Commit(c, draft, seen, key).Ok?
    ensures key.Some? && Projection(draft.kind, draft.common, draft.subject).Some?
    ensures |c.rows| < MAX_RETAINED_COMMANDS && PendingBytes(c.rows, c.next) + draft.bytes <= MAX_PENDING_BYTES
    ensures Commit(c, draft, seen, key).value
         == c.(next := c.next + 1, rows := c.rows[c.next := PendingRow(draft, c.next, key.value)])
  {
  }

  lemma CommitKeeps(c: Connection, draft: Draft, seen: Seen, key: Option<nat>)
    requires Valid(c)
    ensures var r := Commit(c, draft, seen, key);
            r.Ok? ==> Valid(r.value) && key.Some?
                      && r.value == c.(next := c.next + 1,
                                       rows := c.rows[c.next := PendingRow(draft, c.next, key.value)])
  {
    NothingToCatchUp(c);
    if Commit(c, draft, seen, key).Ok? {
      CommitShape(c, draft, seen, key);
      PendingRowFits(draft, c.next, key.value);
      InsertKeeps(c, PendingRow(draft, c.next, key.value));
    }
  }

  lemma InsertIsSound(rows: map<nat, Row>, floor: nat, next: nat, row: Row)
    requires Sound(rows, floor, next) && RowFits(next, row) && row.state == Pending
    requires |rows| < MAX_RETAINED_COMMANDS && PendingBytes(rows, next) + row.bytes <= MAX_PENDING_BYTES
    ensures Sound(rows[next := row], floor, next + 1)
  {
    assert next !in rows;
    InsertedBytes(rows, next, row);
    assert |rows[next := row]| == |rows| + 1;
  }

  lemma InsertKeeps(c: Connection, row: Row)
    requires Valid(c) && RowFits(c.next, row) && row.state == Pending
    requires |c.rows| < MAX_RETAINED_COMMANDS && PendingBytes(c.rows, c.next) + row.bytes <= MAX_PENDING_BYTES
    ensures Valid(c.(next := c.next + 1, rows := c.rows[c.next := row]))
  {
    InsertIsSound(c.rows, c.floor, c.next, row);
    assert FloorIsMaximal(c.rows[c.next := row], c.floor);
  }

  lemma InsertedBytes(rows: map<nat, Row>, k: nat, row: Row)
    requires k !in rows && row.state == Pending
    ensures PendingBytes(rows[k := row], k + 1) <= PendingBytes(rows, k) + row.bytes
  {
    PendingBytesShrink(rows, rows[k := row], k);
  }

  /** An identity match already implies the field-by-field match. */
  lemma IdentityImpliesMatch(k: nat, row: Row, ack: Ack)
    requires RowFits(k, row) && row.state == Pending && Names(row, ack)
    ensures AckMatches(row.body.value, ack)
  {
  }

  lemma AckRowFits(k: nat, row: Row, ack: Ack, ring: set<nat>)
    requires RowFits(k, row) && Consumes(ack.status) && AckRow(row, ack, ring).Some?
    ensures RowFits(k, AckRow(row, ack, ring).value) && AckRow(row, ack, ring).value.state == Acknowledged
  {
  }

  /** Replacing rows in place by fitting rows that weigh no more. */
  lemma ReplaceIsSound(rows: map<nat, Row>, rows': map<nat, Row>, floor: nat, next: nat)
    requires Sound(rows, floor, next) && rows'.Keys == rows.Keys && AllFit(rows')
    requires forall k | k in rows' :: rows'[k] == rows[k] || rows'[k].state != Pending
    ensures Sound(rows', floor, next)
  {
    PendingBytesShrink(rows, rows', next);
    assert |rows'| == |rows'.Keys| && |rows| == |rows.Keys|;
    assert forall k: nat :: k in rows' <==> k in rows'.Keys;
  }

  lemma MarkKeeps(c: Connection, ack: Ack, ring: set<nat>, transport: nat)
    requires Valid(c) && Records(c, ack, ring, transport)
    ensures NearlyValid(Mark(c, ack, ring, transport))
  {
    var k := ack.common.sequence;
    AckRowFits(k, c.rows[k], ack, ring);
    ReplaceIsSound(c.rows, Mark(c, ack, ring, transport).rows, c.floor, c.next);
  }

  lemma AcknowledgeKeeps(c: Connection, ack: Ack, ring: set<nat>, transport: nat)
    requires Valid(c)
    ensures Valid(Acknowledge(c, ack, ring, transport))
  {
    if Records(c, ack, ring, transport) {
      MarkKeeps(c, ack, ring, transport);
      SettleKeeps(Mark(c, ack, ring, transport));
    }
  }

  lemma ErasedRowFits(k: nat, row: Row)
    requires RowFits(k, row)
    ensures RowFits(k, ErasedRow(row))
  {
  }

  lemma EraseRowsFit(rows: map<nat, Row>, selected: set<nat>)
    requires AllFit(rows)
    ensures AllFit(EraseRows(rows, selected))
  {
    forall k | k in rows
      ensures RowFits(k, EraseRows(rows, selected)[k])
    {
      assert RowFits(k, rows[k]);
      ErasedRowFits(k, rows[k]);
    }
  }

  lemma EraseRowsKeeps(c: Connection, selected: set<nat>)
    requires Valid(c)
    ensures Valid(c.(rows := EraseRows(c.rows, selected)))
  {
    EraseRowsFit(c.rows, selected);
    ReplaceIsSound(c.rows, EraseRows(c.rows, selected), c.floor, c.next);
  }

  lemma EraseKeeps(c: Connection, selected: set<nat>, fence: bool)
    requires Valid(c)
    ensures Valid(Erase(c, selected, fence))
  {
    EraseRowsKeeps(c, selected);
  }

  /** A valid journal stores exactly floor+1 .. next-1, so the retained count is
      their distance. */
  lemma RetainedIsDistance(c: Connection)
    requires Valid(c)
    ensures |c.rows| == c.next - c.floor - 1
  {
    assert c.rows.Keys == Span(c.floor, c.next);
    assert |c.rows| == |c.rows.Keys|;
  }

  function Span(lo: nat, hi: nat): (s: set<nat>)
    requires lo < hi
    ensures |s| == hi - lo - 1
    ensures forall k :: k in s <==> lo < k < hi
    decreases hi
  {
    if lo + 1 == hi then {} else Span(lo, hi - 1) + {hi - 1}
  }
}

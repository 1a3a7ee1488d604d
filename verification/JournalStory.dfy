/** What a run did to each command of one connection: which offers were
    committed, which acknowledgements were recorded, which bodies are still
    stored and when the connection closed. */
module JournalStory {
  import opened Wrappers
  import opened Journal
  import opened JournalRuns

  // ----- acknowledgements -----

  /** An acknowledged row holds the acknowledgement on record, and no other row
      has one. */
  predicate RowSaysSo(k: nat, row: Row, acked: map<nat, Ack>) {
    && (row.state == Acknowledged <==> k in acked)
    && (row.state == Acknowledged ==> row.ackBody == Some(acked[k]))
  }

  predicate AckedRows(rows: map<nat, Row>, acked: map<nat, Ack>) {
    forall k | k in rows :: RowSaysSo(k, rows[k], acked)
  }

  ghost predicate Story(l: Log) {
    && Inv(l) && AckedRows(l.conn.rows, l.acked)
    && (forall k | k in l.acked :: k in l.committed)
    && (!l.conn.ready ==> l.conn.closed)
  }

  lemma CommitKeepsStory(l: Log, draft: Draft, seen: Seen, key: Option<nat>)
    requires Story(l)
    ensures Story(Next(l, CommitEvent(draft, seen, key)))
  {
    CommitKeepsInv(l, draft, seen, key);
    CommitKeeps(l.conn, draft, seen, key);
    var l' := Next(l, CommitEvent(draft, seen, key));
    if l' != l {
      forall k | k in l'.conn.rows
        ensures RowSaysSo(k, l'.conn.rows[k], l.acked)
      {
        assert k in l.conn.rows ==> RowSaysSo(k, l.conn.rows[k], l.acked);
      }
    }
  }

  lemma MarkedRowSaysSo(l: Log, ack: Ack, ring: set<nat>, transport: nat)
    requires Story(l) && Records(l.conn, ack, ring, transport)
    ensures AckedRows(Mark(l.conn, ack, ring, transport).rows, l.acked[ack.common.sequence := ack])
  {
    var n := ack.common.sequence;
    var rows := Mark(l.conn, ack, ring, transport).rows;
    forall k | k in rows
      ensures RowSaysSo(k, rows[k], l.acked[n := ack])
    {
      assert RowSaysSo(k, l.conn.rows[k], l.acked);
    }
  }

  lemma AckKeepsStory(l: Log, ack: Ack, ring: set<nat>, transport: nat)
    requires Story(l)
    ensures Story(Next(l, AckEvent(ack, ring, transport)))
  {
    AckKeepsInv(l, ack, ring, transport);
    if Records(l.conn, ack, ring, transport) {
      MarkKeeps(l.conn, ack, ring, transport);
      SettleKeeps(Mark(l.conn, ack, ring, transport));
      MarkedRowSaysSo(l, ack, ring, transport);
      MarkedRow(l, ack, ring, transport);
    }
  }

  lemma ErasedRowsSaySo(rows: map<nat, Row>, selected: set<nat>, acked: map<nat, Ack>)
    requires AckedRows(rows, acked)
    ensures AckedRows(EraseRows(rows, selected), acked)
  {
    forall k | k in rows
      ensures RowSaysSo(k, EraseRows(rows, selected)[k], acked)
    {
      assert RowSaysSo(k, rows[k], acked);
    }
  }

  lemma NextKeepsStory(l: Log, e: Event)
    requires Story(l)
    ensures Story(Next(l, e))
  {
    NextKeepsInv(l, e);
    match e
    case CommitEvent(draft, seen, key) => CommitKeepsStory(l, draft, seen, key);
    case AckEvent(ack, ring, transport) => AckKeepsStory(l, ack, ring, transport);
    case EraseEvent(selected, _) => ErasedRowsSaySo(l.conn.rows, selected, l.acked);
    case ReportedEvent(k) => ErasedRowsSaySo(l.conn.rows, {k}, l.acked);
    case _ =>
  }

  lemma {:induction false} RunKeepsStory(owner: nat, events: seq<Event>)
    ensures Story(Run(Start(owner), events))
    decreases |events|
  {
    if events != [] {
      RunKeepsStory(owner, events[..|events| - 1]);
      NextKeepsStory(Run(Start(owner), events[..|events| - 1]), events[|events| - 1]);
    }
  }

  /** The message repeats a committed command above the floor, its status is not
      one the worker may still change, and no other acknowledgement of that
      command is on record. */
  predicate Answers(l: Log, ack: Ack) {
    var k := ack.common.sequence;
    && k in l.committed && l.conn.floor < k
    && Projection(l.committed[k].kind, ack.common, ack.subject) == Some(l.committed[k])
    && (ack.status.Refused? ==> !ack.status.code.Retryable?)
    && (k in l.acked ==> l.acked[k] == ack)
  }

  lemma RecordsWhatAnswers(l: Log, ack: Ack, ring: set<nat>, transport: nat)
    requires Story(l)
    ensures Records(l.conn, ack, ring, transport) <==> transport == l.conn.transportOwner && Answers(l, ack)
  {
    var k := ack.common.sequence;
    if k in l.conn.rows {
      var row := l.conn.rows[k];
      assert RowFits(k, row) && Recorded(k, row, l.committed, l.acked) && RowSaysSo(k, row, l.acked);
      assert Exact(l.committed[k], ack) <==> Names(row, ack) && Consumes(ack.status);
      if row.state == Pending && Names(row, ack) {
        IdentityImpliesMatch(k, row, ack);
      }
    }
  }

  /** Over every run an acknowledgement is recorded if and only if it comes over
      the transport that owns the connection and answers a command: pending and
      erased ones alike, whether or not the key of their body is still held. */
  lemma RecordedExactly(owner: nat, events: seq<Event>, ack: Ack, ring: set<nat>, transport: nat)
    ensures Records(Run(Start(owner), events).conn, ack, ring, transport)
            <==> transport == owner && Answers(Run(Start(owner), events), ack)
  {
    RunKeepsStory(owner, events);
    OwnerStays(owner, events);
    RecordsWhatAnswers(Run(Start(owner), events), ack, ring, transport);
  }

  lemma OwnerStep(l: Log, e: Event)
    ensures Next(l, e).conn.transportOwner == l.conn.transportOwner
  {
    match e
    case CommitEvent(_, _, _) =>
    case AckEvent(_, _, _) =>
    case _ =>
  }

  lemma {:induction false} OwnerStays(owner: nat, events: seq<Event>)
    ensures Run(Start(owner), events).conn.transportOwner == owner
    decreases |events|
  {
    if events != [] {
      OwnerStays(owner, events[..|events| - 1]);
      OwnerStep(Run(Start(owner), events[..|events| - 1]), events[|events| - 1]);
    }
  }

  /** Everything up to the floor is acknowledged, and the next one is not. */
  ghost predicate FloorIsPrefix(l: Log) {
    && (forall k: nat | 1 <= k <= l.conn.floor :: k in l.acked)
    && l.conn.floor + 1 !in l.acked
  }

  lemma StoryFloorIsPrefix(l: Log)
    requires Story(l)
    ensures FloorIsPrefix(l)
  {
    if l.conn.floor + 1 in l.conn.rows {
      assert RowSaysSo(l.conn.floor + 1, l.conn.rows[l.conn.floor + 1], l.acked);
    }
    forall k: nat | 1 <= k <= l.conn.floor
      ensures k in l.acked
    {
      assert Settled(l.committed, l.acked, k);
    }
  }

  /** The floor is exactly the length of the acknowledged prefix, so an
      acknowledgement of the head raises it, and over all that is acknowledged
      behind the head too. */
  lemma FloorIsTheAcknowledgedPrefix(owner: nat, events: seq<Event>)
    ensures FloorIsPrefix(Run(Start(owner), events))
  {
    RunKeepsStory(owner, events);
    StoryFloorIsPrefix(Run(Start(owner), events));
  }

  /** So the exact acknowledgement of an erased head, which blocks until then,
      raises the floor past it. */
  lemma ErasedHeadMovesOn(owner: nat, events: seq<Event>, ack: Ack, ring: set<nat>)
    requires var l := Run(Start(owner), events);
      l.conn.floor + 1 in l.committed && StuckAt(l, l.conn.floor + 1, l.committed[l.conn.floor + 1])
      && AcksHead(AckEvent(ack, ring, owner), l.conn.floor + 1, l.committed[l.conn.floor + 1])
    ensures Run(Start(owner), events + [AckEvent(ack, ring, owner)]).conn.floor >= ack.common.sequence
  {
    var l, e := Run(Start(owner), events), AckEvent(ack, ring, owner);
    FloorIsTheAcknowledgedPrefix(owner, events);
    RecordedExactly(owner, events, ack, ring, owner);
    assert (events + [e])[..|events|] == events;
    FloorIsTheAcknowledgedPrefix(owner, events + [e]);
    assert Run(Start(owner), events + [e]).acked == l.acked[ack.common.sequence := ack];
    if Run(Start(owner), events + [e]).conn.floor < ack.common.sequence {
      FloorOnlyRises(l, e);
    }
  }

  lemma FloorOnlyRises(l: Log, e: Event)
    ensures Next(l, e).conn.floor >= l.conn.floor
  {
  }

  // ----- what is still stored -----

  predicate Erases(e: Event, k: nat) {
    (e.EraseEvent? && k in e.selected) || e == ReportedEvent(k)
  }

  /** Some step erased the command after it was committed. */
  predicate EverErased(owner: nat, events: seq<Event>, k: nat)
    decreases |events|
  {
    events != [] &&
    var before, e := events[..|events| - 1], events[|events| - 1];
    EverErased(owner, before, k) || (Erases(e, k) && k in Run(Start(owner), before).committed)
  }

  predicate Stored(l: Log, k: nat) {
    k in l.conn.rows && l.conn.rows[k].state == Pending
  }

  lemma StoredAfterCommit(l: Log, draft: Draft, seen: Seen, key: Option<nat>, k: nat)
    requires Story(l)
    ensures var l' := Next(l, CommitEvent(draft, seen, key));
      && (Stored(l', k) <==> Stored(l, k) || (k in l'.committed && k !in l.committed))
      && l'.acked == l.acked && (k in l.committed ==> k in l'.committed)
  {
    CommitKeeps(l.conn, draft, seen, key);
  }

  /** Of the stored bodies an acknowledgement takes its own and no other. */
  lemma MarkTakesItsOwn(l: Log, ack: Ack, ring: set<nat>, transport: nat, k: nat)
    requires Story(l) && Records(l.conn, ack, ring, transport)
    ensures var rows := Mark(l.conn, ack, ring, transport).rows;
      && (k in rows && rows[k].state == Pending <==> Stored(l, k) && k != ack.common.sequence)
      && (Stored(l, k) && k != ack.common.sequence ==> rows[k] == l.conn.rows[k])
  {
    AckRowFits(ack.common.sequence, l.conn.rows[ack.common.sequence], ack, ring);
  }

  lemma StoredAfterAck(l: Log, ack: Ack, ring: set<nat>, transport: nat, k: nat)
    requires Story(l)
    ensures var l' := Next(l, AckEvent(ack, ring, transport));
      && (Stored(l', k) <==> Stored(l, k) && !(k == ack.common.sequence && Records(l.conn, ack, ring, transport)))
      && (Stored(l', k) ==> l'.conn.rows[k] == l.conn.rows[k])
      && (k in l'.acked <==> k in l.acked || (k == ack.common.sequence && Records(l.conn, ack, ring, transport)))
  {
    if Records(l.conn, ack, ring, transport) {
      MarkKeeps(l.conn, ack, ring, transport);
      MarkTakesItsOwn(l, ack, ring, transport, k);
      SettleLeavesOthers(Mark(l.conn, ack, ring, transport), k);
    }
  }

  /** One step's worth of the next result. */
  predicate StoredNext(l: Log, e: Event, k: nat) {
    var l' := Next(l, e);
    && (Stored(l', k) <==> (Stored(l, k) && !Erases(e, k) && k !in l'.acked) || (k in l'.committed && k !in l.committed))
    && (k in l.committed ==> k in l'.committed) && (k in l.acked ==> k in l'.acked)
    && (k in l'.committed && k !in l.committed ==> k !in l'.acked && !Erases(e, k))
    && (k in l'.acked ==> k in l.acked || Stored(l, k) || (k in l.conn.rows && l.conn.rows[k].state == Erased))
  }

  lemma LeftStored(rows: map<nat, Row>, selected: set<nat>, k: nat)
    ensures var rows' := EraseRows(rows, selected);
      && (k in rows' <==> k in rows)
      && (k in rows ==> (rows'[k].state == Pending <==> rows[k].state == Pending && k !in selected))
  {
  }

  lemma StoredNextErase(l: Log, e: Event, k: nat)
    requires Story(l) && (e.EraseEvent? || e.ReportedEvent?)
    ensures StoredNext(l, e, k)
  {
    if k in l.conn.rows {
      assert RowSaysSo(k, l.conn.rows[k], l.acked);
    }
    match e
    case EraseEvent(selected, fence) =>
      LeftStored(l.conn.rows, selected, k);
      if Stored(l, k) && k in selected {
        assert HasPending(l.conn.rows, selected);
      }
    case ReportedEvent(m) => LeftStored(l.conn.rows, {m}, k);
  }

  lemma StoredStep(l: Log, e: Event, k: nat)
    requires Story(l)
    ensures StoredNext(l, e, k)
  {
    if k in l.conn.rows {
      assert RowSaysSo(k, l.conn.rows[k], l.acked);
    }
    match e
    case CommitEvent(draft, seen, key) => StoredAfterCommit(l, draft, seen, key, k);
    case AckEvent(ack, ring, transport) => StoredAfterAck(l, ack, ring, transport, k);
    case EraseEvent(_, _) => StoredNextErase(l, e, k);
    case ReportedEvent(_) => StoredNextErase(l, e, k);
    case DeliverEvent(_, _) =>
    case CloseEvent =>
  }

  /** A body is stored exactly for the committed commands that were neither
      acknowledged nor erased: an erasure takes what it selects and nothing
      else. */
  lemma {:induction false} StoredExactly(owner: nat, events: seq<Event>, k: nat)
    ensures var l := Run(Start(owner), events);
      Stored(l, k) <==> k in l.committed && k !in l.acked && !EverErased(owner, events, k)
    decreases |events|
  {
    if events != [] {
      var before, e := events[..|events| - 1], events[|events| - 1];
      StoredExactly(owner, before, k);
      RunKeepsStory(owner, before);
      NeverErasedBeforeItsCommit(owner, before, k);
      StoredStep(Run(Start(owner), before), e, k);
    }
  }

  lemma {:induction false} NeverErasedBeforeItsCommit(owner: nat, events: seq<Event>, k: nat)
    ensures EverErased(owner, events, k) ==> k in Run(Start(owner), events).committed
    ensures k in Run(Start(owner), events).acked ==> k in Run(Start(owner), events).committed
    decreases |events|
  {
    RunKeepsStory(owner, events);
    if events != [] {
      NeverErasedBeforeItsCommit(owner, events[..|events| - 1], k);
    }
  }

  /** So exactly the first command that is neither acknowledged nor erased, all
      before it being acknowledged, can be handed over, and only while the
      connection is open and its authority holds. */
  lemma DeliverableExactly(owner: nat, events: seq<Event>, k: nat, authority: bool)
    ensures var l := Run(Start(owner), events);
      Deliverable(l.conn, k, authority)
      <==> && authority && !l.conn.closed && k in l.committed && k !in l.acked && !EverErased(owner, events, k)
           && forall m: nat | 1 <= m < k :: m in l.acked
  {
    var l := Run(Start(owner), events);
    RunKeepsStory(owner, events);
    StoredExactly(owner, events, k);
    FloorIsTheAcknowledgedPrefix(owner, events);
    if k in l.committed && k > l.conn.floor + 1 {
      assert l.conn.floor + 1 !in l.acked;
    }
  }

  // ----- the stored body is the offer -----

  /** The offers that were committed, by their sequence. */
  function Offers(owner: nat, events: seq<Event>): map<nat, Draft>
    decreases |events|
  {
    if events == [] then map[]
    else
      var before, e := events[..|events| - 1], events[|events| - 1];
      var l := Run(Start(owner), before);
      if e.CommitEvent? && Commit(l.conn, e.draft, e.seen, e.key).Ok?
      then Offers(owner, before)[l.conn.next := e.draft] else Offers(owner, before)
  }

  predicate IsOffer(row: Row, draft: Draft, k: nat) {
    && row.account == Some(draft.account) && row.bytes == draft.bytes && row.kind == draft.kind
    && row.body.Some? && row.body.value.identity.common == draft.common.(sequence := k)
    && row.body.value.identity.subject == draft.subject && row.body.value.identity.kind == draft.kind
    && row.body.value.model == draft.model && row.body.value.params == draft.params
    && row.body.value.paramsRevision == draft.paramsRevision
  }

  lemma NewRowIsOffer(draft: Draft, k: nat, key: nat)
    ensures IsOffer(PendingRow(draft, k, key), draft, k) && PendingRow(draft, k, key).keyVersion == Some(key)
  {
  }

  /** Whatever happens to other commands, a stored body is the command that was
      offered, for the account, the subject and the size it was offered with. */
  lemma {:induction false} StoredAsOffered(owner: nat, events: seq<Event>, k: nat)
    ensures k in Run(Start(owner), events).committed <==> k in Offers(owner, events)
    ensures Stored(Run(Start(owner), events), k) ==>
      k in Offers(owner, events) && IsOffer(Run(Start(owner), events).conn.rows[k], Offers(owner, events)[k], k)
    decreases |events|
  {
    if events != [] {
      var before, e := events[..|events| - 1], events[|events| - 1];
      StoredAsOffered(owner, before, k);
      RunKeepsStory(owner, before);
      OfferedStep(Run(Start(owner), before), e, k);
      CommittedStep(Run(Start(owner), before), e, k);
    }
  }

  lemma CommittedStep(l: Log, e: Event, k: nat)
    ensures k in Next(l, e).committed
            <==> k in l.committed
                 || (e.CommitEvent? && Commit(l.conn, e.draft, e.seen, e.key).Ok? && k == l.conn.next)
  {
    match e
    case CommitEvent(_, _, _) =>
    case _ =>
  }

  lemma OfferedStep(l: Log, e: Event, k: nat)
    requires Story(l)
    ensures Stored(Next(l, e), k) && Stored(l, k) ==> Next(l, e).conn.rows[k] == l.conn.rows[k]
    ensures Stored(Next(l, e), k) && !Stored(l, k) ==>
      && e.CommitEvent? && Commit(l.conn, e.draft, e.seen, e.key).Ok? && k == l.conn.next
      && IsOffer(Next(l, e).conn.rows[k], e.draft, k)
  {
    match e
    case CommitEvent(draft, seen, key) =>
      CommitKeeps(l.conn, draft, seen, key);
      if Commit(l.conn, draft, seen, key).Ok? {
        NewRowIsOffer(draft, l.conn.next, key.value);
      }
    case AckEvent(ack, ring, transport) =>
      StoredAfterAck(l, ack, ring, transport, k);
    case EraseEvent(_, _) =>
    case ReportedEvent(_) =>
    case _ =>
  }

  // ----- what is committed -----

  /** Everything the transaction must find. */
  predicate Authorised(c: Connection, seen: Seen) {
    && seen.subject && !c.closed && c.ready && c.transportOwner == seen.transport
    && seen.lease && seen.leaseLive && seen.epoch
    && seen.grantReady && seen.grantLive && seen.nonce && seen.cancelOwner && seen.unmoved
    && seen.hint < 0x7fff_ffff_ffff_ffff && c.next < 0x7fff_ffff_ffff_ffff
  }

  predicate Encodes(draft: Draft, seen: Seen) {
    && (IsSessionKind(draft.kind) <==> draft.subject.SessionSubject?)
    && seen.schema
    && draft.bytes <= (if draft.kind == CloseSession || draft.kind == CancelJob
                       then 16 * 1024 else 1024 * 1024)
  }

  predicate HasRoom(c: Connection, draft: Draft) {
    && c.next - c.floor - 1 < 256
    && PendingBytes(c.rows, c.next) + draft.bytes <= 4 * 1024 * 1024
  }

  /** Over every run an offer is committed if and only if the transaction finds
      the subject current, the connection open under a live lease and a live
      grant of the same epoch and nonce, the message well formed and small
      enough, fewer than 256 commands unresolved, room for its bytes, and a key
      to write with. */
  lemma CommittedExactly(owner: nat, events: seq<Event>, draft: Draft, seen: Seen, key: Option<nat>)
    ensures var c := Run(Start(owner), events).conn;
      Commit(c, draft, seen, key).Ok?
      <==> Authorised(c, seen) && Encodes(draft, seen) && HasRoom(c, draft) && key.Some?
  {
    RunKeepsStory(owner, events);
    var c := Run(Start(owner), events).conn;
    NothingToCatchUp(c);
    RetainedIsDistance(c);
  }

  /** What the transaction checks, each with the refusal it answers. */
  function Checks(c: Connection, draft: Draft, seen: Seen, key: Option<nat>): seq<(bool, Refusal)> {
    [(seen.hint < MAX_SEQUENCE, Exhausted), (seen.subject, SubjectStale), (!c.closed && c.ready, NoWorkGrant),
     (seen.lease, LeaseUnavailable), (c.transportOwner == seen.transport && seen.grantReady, NoWorkGrant),
     (seen.unmoved, AllocationChanged), (seen.cancelOwner, CancelOwnerStale), (seen.nonce, NonceStale),
     (seen.epoch, AuthorityStale), (seen.leaseLive, LeaseExpired), (seen.grantLive, GrantExpired),
     (c.next < MAX_SEQUENCE, Exhausted), (IsSessionKind(draft.kind) == draft.subject.SessionSubject?, NoAckIdentity),
     (seen.schema, Malformed), (draft.bytes <= SizeLimit(draft.kind), TooLarge), (HasRoom(c, draft), JournalFull),
     (key.Some?, KeyUnavailable)]
  }

  lemma FirstFailingIsAnswered(c: Connection, draft: Draft, seen: Seen, key: Option<nat>, i: nat)
    requires Settle(c) == c && |c.rows| == c.next - c.floor - 1
    requires var checks := Checks(c, draft, seen, key);
      i < |checks| && !checks[i].0 && forall j | 0 <= j < i :: checks[j].0
    ensures Commit(c, draft, seen, key) == Err(Checks(c, draft, seen, key)[i].1)
  {
    var checks := Checks(c, draft, seen, key);
    assert ((0 < i ==> checks[0].0) && (1 < i ==> checks[1].0) && (2 < i ==> checks[2].0) && (3 < i ==> checks[3].0))
      && ((4 < i ==> checks[4].0) && (5 < i ==> checks[5].0) && (6 < i ==> checks[6].0) && (7 < i ==> checks[7].0))
      && ((8 < i ==> checks[8].0) && (9 < i ==> checks[9].0) && (10 < i ==> checks[10].0) && (11 < i ==> checks[11].0))
      && ((12 < i ==> checks[12].0) && (13 < i ==> checks[13].0) && (14 < i ==> checks[14].0) && (15 < i ==> checks[15].0));
  }

  /** A refusal is that of the first check that fails. */
  lemma RefusedByTheFirst(owner: nat, events: seq<Event>, draft: Draft, seen: Seen, key: Option<nat>, i: nat)
    requires var checks := Checks(Run(Start(owner), events).conn, draft, seen, key);
      i < |checks| && !checks[i].0 && forall j | 0 <= j < i :: checks[j].0
    ensures var c := Run(Start(owner), events).conn;
      Commit(c, draft, seen, key) == Err(Checks(c, draft, seen, key)[i].1)
  {
    RunKeepsStory(owner, events);
    NothingToCatchUp(Run(Start(owner), events).conn);
    RetainedIsDistance(Run(Start(owner), events).conn);
    FirstFailingIsAnswered(Run(Start(owner), events).conn, draft, seen, key, i);
  }

  lemma AppendedBytes(rows: map<nat, Row>, next: nat, row: Row)
    requires next !in rows && row.state == Pending
    ensures PendingBytes(rows[next := row], next + 1) == PendingBytes(rows, next) + row.bytes
  {
    SameBytes(rows, rows[next := row], next);
  }

  /** And it takes exactly its own bytes of the budget. */
  lemma CommitTakesItsBytes(c: Connection, draft: Draft, seen: Seen, key: Option<nat>)
    requires Valid(c) && Commit(c, draft, seen, key).Ok?
    ensures var c' := Commit(c, draft, seen, key).value;
      PendingBytes(c'.rows, c'.next) == PendingBytes(c.rows, c.next) + draft.bytes
  {
    CommitKeeps(c, draft, seen, key);
    AppendedBytes(c.rows, c.next, PendingRow(draft, c.next, key.value));
  }

  lemma {:induction false} SameBytes(rows: map<nat, Row>, rows': map<nat, Row>, hi: nat)
    requires forall k: nat | k < hi :: Weight(rows, k) == Weight(rows', k)
    ensures PendingBytes(rows, hi) == PendingBytes(rows', hi)
  {
    if hi > 0 {
      SameBytes(rows, rows', hi - 1);
    }
  }

  // ----- when it closes -----

  /** Its hang-up, an erasure that fences it or finds a stored body, and the
      acknowledgement of a body whose key is gone. */
  predicate Closes(l: Log, e: Event) {
    match e
    case CloseEvent => true
    case EraseEvent(selected, fence) => fence || exists k | k in selected :: Stored(l, k)
    case AckEvent(ack, ring, transport) =>
      && transport == l.conn.transportOwner && Answers(l, ack) && Stored(l, ack.common.sequence)
      && !Readable(l.conn.rows[ack.common.sequence], ring)
    case _ => false
  }

  lemma ClosesStep(l: Log, e: Event)
    requires Story(l)
    ensures Next(l, e).conn.closed <==> l.conn.closed || Closes(l, e)
  {
    match e
    case CommitEvent(draft, seen, key) => CommitKeeps(l.conn, draft, seen, key);
    case AckEvent(ack, ring, transport) => RecordsWhatAnswers(l, ack, ring, transport);
    case EraseEvent(selected, fence) =>
      assert HasPending(l.conn.rows, selected) <==> exists k | k in selected :: Stored(l, k);
    case _ =>
  }

  predicate EverClosed(owner: nat, events: seq<Event>)
    decreases |events|
  {
    events != [] &&
    var before := events[..|events| - 1];
    EverClosed(owner, before) || Closes(Run(Start(owner), before), events[|events| - 1])
  }

  /** Over every run the connection is closed if and only if one of these
      happened to it. */
  lemma {:induction false} ClosedExactly(owner: nat, events: seq<Event>)
    ensures Run(Start(owner), events).conn.closed <==> EverClosed(owner, events)
    decreases |events|
  {
    if events != [] {
      var before := events[..|events| - 1];
      ClosedExactly(owner, before);
      RunKeepsStory(owner, before);
      ClosesStep(Run(Start(owner), before), events[|before|]);
    }
  }
}

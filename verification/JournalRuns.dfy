/** Whole runs of one connection's journal, with a record of what was committed,
    acknowledged and handed to the transport. */
module JournalRuns {
  import opened Wrappers
  import opened Journal

  datatype Event =
    | CommitEvent(draft: Draft, seen: Seen, key: Option<nat>)
    | DeliverEvent(sequence: nat, authority: bool)
    | AckEvent(ack: Ack, ring: set<nat>, transport: nat)
    | EraseEvent(selected: set<nat>, fence: bool)
    | ReportedEvent(sequence: nat)
    | CloseEvent

  datatype Log = Log(
    conn: Connection,
    committed: map<nat, Identity>,
    acked: map<nat, Ack>,
    delivered: seq<nat>)

  function Start(transportOwner: nat): Log {
    Log(NewConnection(transportOwner), map[], map[], [])
  }

  function Next(l: Log, e: Event): Log {
    match e
    case CommitEvent(draft, seen, key) =>
      (match Commit(l.conn, draft, seen, key)
       case Ok(c) => l.(conn := c, committed := l.committed[l.conn.next := BodyOf(draft, l.conn.next).identity])
       case Err(_) => l)
    case DeliverEvent(k, authority) =>
      if Deliverable(l.conn, k, authority) then l.(delivered := l.delivered + [k]) else l
    case AckEvent(ack, ring, transport) =>
      if Records(l.conn, ack, ring, transport)
      then l.(conn := Acknowledge(l.conn, ack, ring, transport), acked := l.acked[ack.common.sequence := ack])
      else l
    case EraseEvent(selected, fence) => l.(conn := Erase(l.conn, selected, fence))
    case ReportedEvent(k) => l.(conn := EraseReported(l.conn, k))
    case CloseEvent => l.(conn := l.conn.(closed := true))
  }

  function Run(l: Log, events: seq<Event>): Log
    decreases |events|
  {
    if events == [] then l else Next(Run(l, events[..|events| - 1]), events[|events| - 1])
  }

  /** The acknowledgement repeats the committed command's identity. */
  predicate Exact(identity: Identity, ack: Ack) {
    Projection(identity.kind, ack.common, ack.subject) == Some(identity) && Consumes(ack.status)
  }

  predicate Settled(committed: map<nat, Identity>, acked: map<nat, Ack>, k: nat) {
    k in committed && k in acked && Exact(committed[k], acked[k])
  }

  predicate Nondecreasing(s: seq<nat>) {
    forall i, j | 0 <= i < j < |s| :: s[i] <= s[j]
  }

  /** What the history must say about a stored row. */
  predicate Recorded(k: nat, row: Row, committed: map<nat, Identity>, acked: map<nat, Ack>) {
    && k in committed && row.identity == Some(committed[k])
    && (row.state == Acknowledged ==> Settled(committed, acked, k))
  }

  predicate AllRecorded(rows: map<nat, Row>, committed: map<nat, Identity>, acked: map<nat, Ack>) {
    forall k | k in rows :: Recorded(k, rows[k], committed, acked)
  }

  ghost predicate AllSettled(floor: nat, committed: map<nat, Identity>, acked: map<nat, Ack>) {
    forall k: nat | 1 <= k <= floor :: Settled(committed, acked, k)
  }

  ghost predicate Numbered(committed: map<nat, Identity>, next: nat) {
    forall k: nat :: k in committed <==> 1 <= k < next
  }

  predicate InOrder(delivered: seq<nat>, floor: nat) {
    Nondecreasing(delivered) && forall i | 0 <= i < |delivered| :: 1 <= delivered[i] <= floor + 1
  }

  ghost predicate Inv(l: Log) {
    && Valid(l.conn)
    && Numbered(l.committed, l.conn.next)
    && AllRecorded(l.conn.rows, l.committed, l.acked)
    && AllSettled(l.conn.floor, l.committed, l.acked)
    && InOrder(l.delivered, l.conn.floor)
  }

  lemma CommitKeepsInv(l: Log, draft: Draft, seen: Seen, key: Option<nat>)
    requires Inv(l)
    ensures Inv(Next(l, CommitEvent(draft, seen, key)))
  {
    CommitKeeps(l.conn, draft, seen, key);
    var l' := Next(l, CommitEvent(draft, seen, key));
    if l' != l {
      MoreCommitted(l, l.conn.next, BodyOf(draft, l.conn.next).identity);
    }
  }

  /** Committing a new sequence changes nothing recorded about the others. */
  lemma MoreCommitted(l: Log, n: nat, identity: Identity)
    requires Numbered(l.committed, n) && AllRecorded(l.conn.rows, l.committed, l.acked)
    requires l.conn.floor < n && AllSettled(l.conn.floor, l.committed, l.acked)
    ensures n > 0 ==> Numbered(l.committed[n := identity], n + 1)
    ensures AllRecorded(l.conn.rows, l.committed[n := identity], l.acked)
    ensures AllSettled(l.conn.floor, l.committed[n := identity], l.acked)
  {
    var committed := l.committed[n := identity];
    forall k | k in l.conn.rows
      ensures Recorded(k, l.conn.rows[k], committed, l.acked)
    {
      assert Recorded(k, l.conn.rows[k], l.committed, l.acked);
    }
    forall k: nat | 1 <= k <= l.conn.floor
      ensures Settled(committed, l.acked, k)
    {
      assert Settled(l.committed, l.acked, k);
    }
  }

  /** The row an acknowledgement marks, and the committed identity it repeats. */
  lemma MarkedRow(l: Log, ack: Ack, ring: set<nat>, transport: nat)
    requires Inv(l) && Records(l.conn, ack, ring, transport)
    ensures var k := ack.common.sequence;
            && k in l.committed && Exact(l.committed[k], ack)
            && AckRow(l.conn.rows[k], ack, ring).value.identity == Some(l.committed[k])
  {
    var k := ack.common.sequence;
    assert Recorded(k, l.conn.rows[k], l.committed, l.acked);
    assert Names(l.conn.rows[k], ack);
  }

  lemma MarkIsRecorded(l: Log, ack: Ack, ring: set<nat>, transport: nat)
    requires Inv(l) && Records(l.conn, ack, ring, transport)
    ensures AllRecorded(Mark(l.conn, ack, ring, transport).rows, l.committed, l.acked[ack.common.sequence := ack])
    ensures AllSettled(l.conn.floor, l.committed, l.acked[ack.common.sequence := ack])
  {
    var n := ack.common.sequence;
    var rows := Mark(l.conn, ack, ring, transport).rows;
    var acked := l.acked[n := ack];
    MarkedRow(l, ack, ring, transport);
    forall k | k in rows
      ensures Recorded(k, rows[k], l.committed, acked)
    {
      assert Recorded(k, l.conn.rows[k], l.committed, l.acked);
    }
    forall k: nat | 1 <= k <= l.conn.floor
      ensures Settled(l.committed, acked, k)
    {
      assert Settled(l.committed, l.acked, k);
    }
  }

  /** Raising the floor passes only recorded, acknowledged rows. */
  lemma SettleIsRecorded(c: Connection, committed: map<nat, Identity>, acked: map<nat, Ack>)
    requires NearlyValid(c) && AllRecorded(c.rows, committed, acked) && AllSettled(c.floor, committed, acked)
    ensures AllRecorded(Settle(c).rows, committed, acked)
    ensures AllSettled(Settle(c).floor, committed, acked)
  {
    SettleKeeps(c);
    forall k: nat | c.floor < k <= Settle(c).floor
      ensures Settled(committed, acked, k)
    {
      assert KnownAcknowledged(c.rows[k]) && Recorded(k, c.rows[k], committed, acked);
    }
  }

  lemma AckKeepsInv(l: Log, ack: Ack, ring: set<nat>, transport: nat)
    requires Inv(l)
    ensures Inv(Next(l, AckEvent(ack, ring, transport)))
  {
    if Records(l.conn, ack, ring, transport) {
      var m := Mark(l.conn, ack, ring, transport);
      MarkKeeps(l.conn, ack, ring, transport);
      MarkIsRecorded(l, ack, ring, transport);
      SettleKeeps(m);
      SettleIsRecorded(m, l.committed, l.acked[ack.common.sequence := ack]);
    }
  }

  lemma EraseRowsIsRecorded(rows: map<nat, Row>, selected: set<nat>, committed: map<nat, Identity>,
                            acked: map<nat, Ack>)
    requires AllRecorded(rows, committed, acked)
    ensures AllRecorded(EraseRows(rows, selected), committed, acked)
  {
    forall k | k in rows
      ensures Recorded(k, EraseRows(rows, selected)[k], committed, acked)
    {
      assert Recorded(k, rows[k], committed, acked);
    }
  }

  lemma NextKeepsInv(l: Log, e: Event)
    requires Inv(l)
    ensures Inv(Next(l, e))
  {
    match e
    case CommitEvent(draft, seen, key) => CommitKeepsInv(l, draft, seen, key);
    case DeliverEvent(_, _) =>
    case AckEvent(ack, ring, transport) => AckKeepsInv(l, ack, ring, transport);
    case EraseEvent(selected, fence) =>
      EraseKeeps(l.conn, selected, fence);
      EraseRowsIsRecorded(l.conn.rows, selected, l.committed, l.acked);
    case ReportedEvent(k) =>
      EraseRowsKeeps(l.conn, {k});
      EraseRowsIsRecorded(l.conn.rows, {k}, l.committed, l.acked);
    case CloseEvent =>
  }

  /** Every interleaving of commits, deliveries, acknowledgements, erasures and
      closes leaves a valid journal: rows are exactly floor+1 .. next-1, the
      floor is maximal, at most 256 rows and 4 MiB of pending bodies are held. */
  lemma {:induction false} RunKeepsInv(l: Log, events: seq<Event>)
    requires Inv(l)
    ensures Inv(Run(l, events))
    decreases |events|
  {
    if events != [] {
      RunKeepsInv(l, events[..|events| - 1]);
      NextKeepsInv(Run(l, events[..|events| - 1]), events[|events| - 1]);
    }
  }

  lemma ReachableJournalIsValid(owner: nat, events: seq<Event>)
    ensures Valid(Run(Start(owner), events).conn)
    ensures var c := Run(Start(owner), events).conn; |c.rows| == c.next - c.floor - 1
  {
    RunKeepsInv(Start(owner), events);
    RetainedIsDistance(Run(Start(owner), events).conn);
  }

  /** Wherever a run hands sequence `k` to the transport, every earlier command
      has its own exact acknowledgement on record, and no later command was
      handed over before. */
  lemma DeliveryWaitsForAcknowledgements(owner: nat, events: seq<Event>, k: nat, authority: bool)
    requires Deliverable(Run(Start(owner), events).conn, k, authority)
    ensures var l := Run(Start(owner), events);
            && k in l.committed
            && (forall m: nat | 1 <= m < k :: Settled(l.committed, l.acked, m))
            && (forall i | 0 <= i < |l.delivered| :: l.delivered[i] <= k)
  {
    RunKeepsInv(Start(owner), events);
  }

  lemma DeliveriesNeverDecrease(owner: nat, events: seq<Event>)
    ensures Nondecreasing(Run(Start(owner), events).delivered)
  {
    RunKeepsInv(Start(owner), events);
  }

  predicate AcksHead(e: Event, head: nat, identity: Identity) {
    e.AckEvent? && e.ack.common.sequence == head && Exact(identity, e.ack)
  }

  /** The head of the journal is the erased command `identity`. */
  predicate StuckAt(l: Log, head: nat, identity: Identity) {
    && l.conn.floor + 1 == head && head in l.conn.rows && l.conn.rows[head].state == Erased
    && head in l.committed && l.committed[head] == identity
  }

  /** While the head is erased, nothing is handed over and the floor stands,
      until the erased command's own acknowledgement arrives. */
  lemma {:induction false} ErasedHeadBlocks(l: Log, head: nat, identity: Identity, events: seq<Event>)
    requires Inv(l) && StuckAt(l, head, identity)
    requires forall i | 0 <= i < |events| :: !AcksHead(events[i], head, identity)
    ensures StuckAt(Run(l, events), head, identity) && Run(l, events).delivered == l.delivered
    decreases |events|
  {
    if events != [] {
      var n := |events| - 1;
      ErasedHeadBlocks(l, head, identity, events[..n]);
      RunKeepsInv(l, events[..n]);
      ErasedHeadStep(Run(l, events[..n]), head, identity, events[n]);
    }
  }

  lemma ErasedHeadAck(l: Log, head: nat, identity: Identity, ack: Ack, ring: set<nat>, transport: nat)
    requires Inv(l) && StuckAt(l, head, identity) && Records(l.conn, ack, ring, transport)
    requires !(ack.common.sequence == head && Exact(identity, ack))
    ensures StuckAt(Next(l, AckEvent(ack, ring, transport)), head, identity)
  {
    MarkedRow(l, ack, ring, transport);
    var m := Mark(l.conn, ack, ring, transport);
    assert m.rows[head] == l.conn.rows[head];
    assert Advance(m.rows, m.floor, m.next) == m.floor;
  }

  lemma ErasedHeadStep(l: Log, head: nat, identity: Identity, e: Event)
    requires Inv(l) && StuckAt(l, head, identity) && !AcksHead(e, head, identity)
    ensures StuckAt(Next(l, e), head, identity) && Next(l, e).delivered == l.delivered
  {
    match e
    case CommitEvent(draft, seen, key) => CommitKeeps(l.conn, draft, seen, key);
    case AckEvent(ack, ring, transport) =>
      if Records(l.conn, ack, ring, transport) {
        ErasedHeadAck(l, head, identity, ack, ring, transport);
      }
    case _ =>
  }

  /** Once a connection is closed nothing more is committed or delivered on it. */
  lemma {:induction false} ClosedForGood(l: Log, events: seq<Event>)
    requires l.conn.closed
    ensures var l' := Run(l, events);
            l'.conn.closed && l'.committed == l.committed && l'.delivered == l.delivered
            && l'.conn.next == l.conn.next
    decreases |events|
  {
    if events != [] {
      ClosedForGood(l, events[..|events| - 1]);
      ClosedStep(Run(l, events[..|events| - 1]), events[|events| - 1]);
    }
  }

  lemma ClosedStep(l: Log, e: Event)
    requires l.conn.closed
    ensures Next(l, e).conn.closed && Next(l, e).committed == l.committed
    ensures Next(l, e).delivered == l.delivered && Next(l, e).conn.next == l.conn.next
  {
    match e
    case CommitEvent(_, _, _) =>
    case DeliverEvent(_, _) =>
    case AckEvent(_, _, _) =>
    case EraseEvent(_, _) =>
    case ReportedEvent(_) =>
    case CloseEvent =>
  }

  /** An account, realtime or subject erasure that touches a connection removes
      every selected pending body and closes it in the same transaction. */
  lemma ErasureFences(l: Log, selected: set<nat>, fence: bool, events: seq<Event>)
    requires fence || HasPending(l.conn.rows, selected)
    ensures var erased := Next(l, EraseEvent(selected, fence));
            && (forall k | k in erased.conn.rows && k in selected :: erased.conn.rows[k].state != Pending)
            && (forall k | k in selected && k in l.conn.rows && l.conn.rows[k].state == Pending ::
                  erased.conn.rows[k].state == Erased && erased.conn.rows[k].body.None?)
            && Run(erased, events).committed == l.committed
            && Run(erased, events).delivered == l.delivered
  {
    ClosedForGood(Next(l, EraseEvent(selected, fence)), events);
  }
}

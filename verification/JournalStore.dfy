/** The journal as the store changes it: columns and rows updated in place, the
    floor raised by loops over the rows the transaction read under lock. */
module JournalStore {
  import opened Wrappers
  import opened Journal

  /** The catch-up loop of commit_command. */
  method RaiseFloor(rows: map<nat, Row>, floor: nat, next: nat) returns (raised: nat)
    ensures raised == Advance(rows, floor, next)
  {
    raised := floor;
    while raised + 1 < next
      invariant floor <= raised
      invariant Advance(rows, raised, next) == Advance(rows, floor, next)
    {
      if raised + 1 !in rows || !KnownAcknowledged(rows[raised + 1]) {
        return;
      }
      raised := raised + 1;
    }
  }

  /** The loop of acknowledge: it reads the rows as they were before this
      transaction's own update, and takes its own row, `sequence`, on trust. */
  method RaiseFloorPast(before: map<nat, Row>, sequence: nat, row: Row, floor: nat, next: nat)
    returns (raised: nat)
    requires sequence in before && before[sequence].identity == row.identity && KnownAcknowledged(row)
    ensures raised == Advance(before[sequence := row], floor, next)
  {
    ghost var after := before[sequence := row];
    raised := floor;
    while raised + 1 < next
      invariant floor <= raised
      invariant Advance(after, raised, next) == Advance(after, floor, next)
    {
      var current := raised + 1;
      if current !in before || before[current].identity.None? {
        return;
      }
      if current != sequence && !KnownAcknowledged(before[current]) {
        return;
      }
      raised := raised + 1;
    }
  }

  /** sum(complete_bytes) over the locked pending rows. */
  method SumPending(rows: map<nat, Row>, next: nat) returns (total: nat)
    ensures total == PendingBytes(rows, next)
  {
    total := 0;
    for k := 0 to next
      invariant total == PendingBytes(rows, k)
    {
      if k in rows && rows[k].state == Pending {
        total := total + rows[k].bytes;
      }
    }
  }

  class Store {
    var transportOwner: nat
    var closed: bool
    var ready: bool
    var floor: nat
    var next: nat
    var rows: map<nat, Row>

    function Model(): Connection
      reads this
    {
      Connection(transportOwner, closed, ready, floor, next, rows)
    }

    constructor (owner: nat)
      ensures Model() == NewConnection(owner)
    {
      transportOwner, closed, ready, floor, next, rows := owner, false, true, 0, 1, map[];
    }

    /** The floor and the rows once the leading acknowledgements are pruned. */
    method CatchUp() returns (raised: nat, retained: map<nat, Row>)
      ensures raised == Settle(Model()).floor && retained == Settle(Model()).rows
    {
      raised := RaiseFloor(rows, floor, next);
      retained := if raised > floor then Prune(rows, raised) else rows;
    }

    method CommitCommand(draft: Draft, seen: Seen, key: Option<nat>) returns (r: Result<nat, Refusal>)
      modifies this
      ensures match Commit(old(Model()), draft, seen, key)
              case Ok(c) => r == Ok(old(next)) && Model() == c
              case Err(e) => r == Err(e) && Model() == old(Model())
    {
      if seen.hint >= MAX_SEQUENCE { return Err(Exhausted); }
      if !seen.subject { return Err(SubjectStale); }
      if closed || !ready { return Err(NoWorkGrant); }
      if !seen.lease { return Err(LeaseUnavailable); }
      if transportOwner != seen.transport || !seen.grantReady { return Err(NoWorkGrant); }
      if !seen.unmoved { return Err(AllocationChanged); }
      if !seen.cancelOwner { return Err(CancelOwnerStale); }
      if !seen.nonce { return Err(NonceStale); }
      if !seen.epoch { return Err(AuthorityStale); }
      if !seen.leaseLive { return Err(LeaseExpired); }
      if !seen.grantLive { return Err(GrantExpired); }
      var sequence := next;
      if sequence >= MAX_SEQUENCE { return Err(Exhausted); }
      if Projection(draft.kind, draft.common, draft.subject).None? { return Err(NoAckIdentity); }
      if !seen.schema { return Err(Malformed); }
      if draft.bytes > SizeLimit(draft.kind) { return Err(TooLarge); }
      var raised, retained := CatchUp();
      var pending := SumPending(rows, next);
      if |retained| >= MAX_RETAINED_COMMANDS || pending + draft.bytes > MAX_PENDING_BYTES {
        return Err(JournalFull);
      }
      if key.None? { return Err(KeyUnavailable); }
      floor := raised;
      rows := retained[sequence := PendingRow(draft, sequence, key.value)];
      next := next + 1;
      r := Ok(sequence);
    }

    method AcknowledgeCommand(ack: Ack, ring: set<nat>, transport: nat) returns (recorded: bool)
      modifies this
      ensures Model() == Acknowledge(old(Model()), ack, ring, transport)
      ensures recorded == Records(old(Model()), ack, ring, transport)
    {
      if !Consumes(ack.status) || transportOwner != transport { return false; }
      var sequence := ack.common.sequence;
      if sequence !in rows { return false; }
      var before := rows;
      var changed := AckRow(before[sequence], ack, ring);
      if changed.None? { return false; }
      rows := rows[sequence := changed.value];
      if LostKey(before[sequence], ring) {
        closed, ready := true, false;
      }
      AckedIsKnown(before[sequence], ack, ring);
      var raised := RaiseFloorPast(before, sequence, changed.value, floor, next);
      if raised > floor {
        floor := raised;
        rows := Prune(rows, raised);
      }
      recorded := true;
    }

    method ErasePending(selected: set<nat>, fence: bool) returns (erased: bool)
      modifies this
      ensures Model() == Erase(old(Model()), selected, fence)
      ensures erased == HasPending(old(rows), selected)
    {
      erased := exists k | k in selected :: k in rows && rows[k].state == Pending;
      if !erased && !fence { return; }
      if erased {
        rows := EraseRows(rows, selected);
      } else {
        assert EraseRows(rows, selected) == rows;
      }
      closed := true;
    }
  }

  /** Whatever an acknowledgement leaves in a row proves itself afterwards. */
  lemma AckedIsKnown(row: Row, ack: Ack, ring: set<nat>)
    requires Consumes(ack.status) && AckRow(row, ack, ring).Some?
    ensures KnownAcknowledged(AckRow(row, ack, ring).value)
    ensures AckRow(row, ack, ring).value.identity == row.identity
  {
  }
}

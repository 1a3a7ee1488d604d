# Models of the backend's concurrent cores

This project models the parts of the image studio backend whose correctness
rests on more than one function: the durable worker command journal and the
locks around it, the job dispatcher, the lineage walk, timed admission and the
second-factor budget, the audit spool, the shared startup lock, the banner
cache, the root key ring, object naming and the one-slot event queue. Each
module states what the code promises over all inputs or over all runs and
proves it. `dafny verify dfyconfig.toml` checks everything.

How the models read the code:

* A PostgreSQL transaction is one step that may be refused; a stretch of Python
  between two awaits is one step. Only `LockOrder` and `LockPrograms` look
  inside a transaction: there it is the list of locks it takes, in order.
* What the code updates in place is a class whose methods are proved equal to
  a function (`JournalStore.Store`, `SessionStore.Rows`,
  `DispatcherMemory.Memory`, `RateLimit.Store`, `Challenges.Tokens`,
  `Factors.FactorRows`, `Audit.Spool`, `StartupLock.LockGuard`, `Banner.Cache`,
  `Subscriber.Slot`); the loops of the
  code are loops (`JournalStore.RaiseFloor`, `Lineage.Subtree`,
  `KeyRing.ParseRootKeys`, `StorageKeys.SuccessOrphanKeys` and others). The
  lemmas over runs are about those functions.
* `JobStory`, `JournalStory`, `SessionStory` and `FactorStory` say from the events
  of a run alone what it must have made of each job, command, session and
  credential, and prove that the steps make exactly that.
* There is one monotone clock. Where the code reads it before and after waiting
  for a lock (`RateLimit`, `Challenges`) both readings are kept apart.
* Hashes are injective and the authenticated cipher is ideal: a sealed value is
  the term of what went into it.

## What the code does not keep

Seven statements one would expect are false of the code. Each has a concrete
witness and the exact condition under which it holds.

* Two acknowledgements of one command, one accepting and one refusing, need not
  commute: the first recorded one stands. Over floors, rows, lifecycle and
  effective parameters together they commute if and only if one of them changes
  nothing, they are the same message, or the floor passes the row at once and
  neither would publish (`AckOrder.SameCommandCommutes`;
  `AckOrder.AcceptedAndRefusedDiffer` is two whose journals agree and whose
  sessions do not). With at most one acknowledgement per command every order and
  repetition ends the same, but which of them publish still depends on the order:
  one is published exactly when no revision as new of its session took effect
  before it (`AckOrder.PublishedUnlessOvertaken`).
* Account keys taken in user-id order ascend as unsigned numbers. As the signed
  numbers PostgreSQL sees they follow the ids if and only if the two ids do not
  lie on different sides of the top bit (`LockPrograms.SignedKeysFollowIdsIff`,
  with a witness in `LockPrograms.SignedKeysDoNotFollowIds`); the lock order
  therefore ranks the unsigned reading.
* A job can be stranded (`Dispatcher.AJobIsStranded`): a late report of the first
  attempt clears an entry that had made a raising dispatch drop the second
  attempt's hint. It does so where the report is refused by the row and the entry
  is cleared all the same, after an invalid output or a failed promotion
  (backend/app/jobs.py:2022-2038 and 2087-2096). Over every run a live job is
  untracked if and only if some step stranded it and nothing found it again since
  (`Dispatcher.NoJobIsStranded`); a restart finds every job.
* `jobs_in_flight` can exceed the entries of a connected worker
  (`Dispatcher.ASlotLeaks`): booking a job that already has an entry displaces
  that entry with its slot. `Dispatcher.SlotsAccount` gives the exact difference.
* "A bystander who comes back gets a turn" holds if and only if the window has
  charged fewer than 1029 attempts (`RateLimit.RoomAfterEightSeconds`): from
  attempt 1030 on `0.5 * 2 ** 1024` overflows a double, the request fails and its
  charge is rolled back until the window ends (`RateLimit.OverflowLasts`).
  `RateLimit.ABystanderFails` is a run that gets there.
* "A fresh challenge starts with nothing spent" fails for a begin whose
  transaction began before an earlier token lapsed and got the account after
  another begin and a success: it charges its budget for guesses at the lapsed
  token (`Challenges.AStaleClockOvercharges`). A begin carries exactly what it
  should if and only if no earlier token that was charged looks live to it
  (`Challenges.CarriesExactlyIff`), which holds while the clocks that begins see
  do not run backwards; then no token is charged for a guess nobody made
  (`Challenges.LookedAtExactly`).
* The audit module is documented as never losing a record silently. Over every
  run a record is nowhere, for good, if and only if the task recording it was
  cancelled while it waited for its turn or while its insert was under way and
  did not reach the database (`Audit.LostExactlyByCancellation`);
  `Audit.RecordsAreLost` is a run of each kind.

## Model

| member | source | states |
|---|---|---|
| LockOrder.WaitsClimb | backend/app/command_store.py:195-263 | A transaction waiting for a lock of another that waits itself is waiting below it in the documented order: account key, own rows, journal rows, leases, connections. |
| LockOrder.NoWaitCycle | backend/app/command_store.py:792-839 | No reachable state of any set of disciplined transactions holds a wait-for cycle of any length. |
| LockOrder.SomeoneCanMove | backend/app/command_store.py:679-723 | In every reachable state with transactions running, one of them is not blocked. |
| LockPrograms.ProgramsAreDisciplined | backend/app/command_subjects.py:953-1006 | The lock list of every commit, delivery, acknowledgement and erasure follows the order, with an attached row locked only under its subject. |
| LockPrograms.JournalNeverDeadlocks | backend/app/command_store.py:518-575 | No interleaving of those four transactions, over any accounts and workers, reaches a wait cycle, and some transaction can always move. |
| LockPrograms.ProgramsAskForAll | backend/app/command_store.py:195-263 | Every program asks for each account key, session or job, attempt, range, principal, journal row, lease and connection its transaction reads or writes. |
| LockPrograms.WritersAreAlone | backend/app/command_store.py:679-733 | While a transaction has all its locks, no other that shares any of these with it has come as far, or holds what they share. |
| LockPrograms.AccountsAreAlone | backend/app/account_lock.py:23-42 | A transaction past its account keys has its accounts to itself. |
| LockPrograms.KeyWaitersHoldOnlyKeys | backend/app/operator.py:56-63 | Whatever a transaction holds while it waits for an account key is the account keys of its earlier accounts; a transaction of one account holds nothing then. |
| LockPrograms.KeysFollowIds | backend/app/operator.py:56-63 | Accounts locked in id order take their keys in ascending unsigned order; equal keys are one lock. |
| LockPrograms.SignedKeysFollowIdsIff | backend/app/account_lock.py:18-20 | Read as signed 64-bit numbers the keys of two ids in order ascend if and only if the first id has its top bit set or the second has not. |
| LockPrograms.SignedKeysDoNotFollowIds | backend/app/account_lock.py:18-20 | A concrete pair of ids in order whose signed keys are not. |
| Journal.SettleKeeps | backend/app/command_store.py:965-994 | Raising the floor and pruning leaves exactly the rows above the new floor, unchanged, with the floor maximal. |
| Journal.CommitKeeps | backend/app/command_store.py:324-402 | A commit adds one pending row at `next` and changes nothing else, and keeps rows contiguous, the floor maximal, at most 256 rows and at most 4 MiB pending. |
| Journal.IdentityImpliesMatch | backend/app/command_store.py:120-133 | A pending row whose identity hash matches an acknowledgement also matches it field by field. |
| Journal.MarkKeeps | backend/app/command_store.py:842-964 | Recording an acknowledgement changes one row and keeps everything but the maximality of the floor. |
| Journal.AcknowledgeKeeps | backend/app/command_store.py:758-996 | After any acknowledgement the journal is valid again. |
| Journal.EraseRowsKeeps | backend/app/command_store.py:518-548 | Erasing bodies keeps the floor, the numbering and both bounds. |
| Journal.EraseKeeps | backend/app/command_store.py:549-575 | An erasure keeps the journal valid, closed or not. |
| Journal.RetainedIsDistance | backend/app/command_store.py:346-351 | The number of retained rows is next - floor - 1. |
| JournalStore.RaiseFloor | backend/app/command_store.py:325-330 | The commit's floor loop computes the greatest floor all of whose rows are known acknowledged. |
| JournalStore.RaiseFloorPast | backend/app/command_store.py:965-979 | The acknowledgement's floor loop, which sees the old rows and counts its own row as known, computes the floor of the new rows. |
| JournalStore.SumPending | backend/app/command_store.py:352-355 | The pending total is the sum over the pending rows. |
| JournalStore.Store.CommitCommand | backend/app/command_store.py:199-411 | Commit in place, with every refusal of the transaction in its order, exhausted hint and stale subject first: the new state is the specified one or nothing has changed. |
| JournalStore.Store.AcknowledgeCommand | backend/app/command_store.py:842-994 | Acknowledge in place, ending a connection whose key is gone. |
| JournalStore.Store.ErasePending | backend/app/command_store.py:518-575 | Erase in place, closing the connection exactly when it must. |
| JournalRuns.ReachableJournalIsValid | backend/app/command_store.py:324-402 | Over every run of commits, deliveries, acknowledgements and erasures the rows are exactly floor+1 to next-1, the floor is maximal and both bounds hold. |
| JournalRuns.DeliveryWaitsForAcknowledgements | backend/app/command_store.py:460-475 | A command is handed over only when every earlier one has its exact acknowledgement and nothing later was handed over before. |
| JournalRuns.DeliveriesNeverDecrease | backend/app/command_store.py:732-733 | Delivered sequences never decrease over a run. |
| JournalRuns.ErasedHeadBlocks | backend/app/command_store.py:868-880 | An erased head stops the floor and every delivery until its own exact acknowledgement arrives. |
| JournalStory.RecordedExactly | backend/app/command_store.py:842-964 | Over every run an acknowledgement is recorded if and only if it comes over the owning transport, repeats a committed command above the floor with a final status, and no other is on record for it; erased commands and lost keys included. |
| JournalStory.FloorIsTheAcknowledgedPrefix | backend/app/command_store.py:965-994 | Over every run the floor is exactly the length of the acknowledged prefix. |
| JournalStory.ErasedHeadMovesOn | backend/app/command_store.py:868-880 | The exact acknowledgement of an erased head raises the floor past it. |
| JournalStory.StoredExactly | backend/app/command_store.py:518-548 | A body is stored exactly for the committed commands neither acknowledged nor erased: an erasure takes what it selects and nothing else. |
| JournalStory.StoredAsOffered | backend/app/command_store.py:365-402 | A stored body is the command, account, subject and size that were offered, whatever happened to other commands. |
| JournalStory.DeliverableExactly | backend/app/command_store.py:695-733 | Exactly the first command neither acknowledged nor erased, all before it being acknowledged, can be handed over, and only on an open connection with its authority. |
| JournalStory.CommittedExactly | backend/app/command_store.py:199-364 | Over every run an offer is committed if and only if subject, lease, grant, nonce and epoch are current, it is well formed and small enough, fewer than 256 commands are unresolved, its bytes fit into 4 MiB, and there is a key. |
| JournalStory.RefusedByTheFirst | backend/app/command_store.py:199-364 | A refusal names the first check that fails. |
| JournalStory.CommitTakesItsBytes | backend/app/command_store.py:352-357 | A commit takes exactly its own bytes of the pending budget. |
| JournalStory.ClosedExactly | backend/app/command_store.py:549-575 | Over every run a connection is closed if and only if it hung up, an erasure fenced it or found a stored body, or a body was acknowledged whose key is gone. |
| JournalRuns.ClosedForGood | backend/app/command_store.py:549-575 | After the connection closed nothing is committed or delivered on it any more. |
| JournalRuns.ErasureFences | backend/app/command_store.py:578-617 | An erasure that fences, or finds a pending body, removes every selected body and closes the connection in the same step, for good. |
| SessionRuns.RevisionsNameParameters | backend/app/command_subjects.py:142-207 | In every reachable state params_revision <= desired_revision, each revision has a parameter set, each above the first has exactly one committed update, both sides hold their own revision's parameters, and equal revisions mean equal parameters. |
| SessionRuns.NamesStand | backend/app/command_subjects.py:174-203 | A revision named at any moment of a run names the same parameters ever after. |
| SessionRuns.OneSetPerRevision | backend/app/command_subjects.py:142-207 | Two moments of a run, on either side of the session, show the same parameters whenever they show the same generation and revision. |
| SessionRuns.CompareAndSetIsLostOnce | backend/app/command_subjects.py:174-203 | Of two updates built on one revision the second is refused. |
| SessionStory.SubjectFoundExactly | backend/app/command_subjects.py:108-262 | A commit finds its subject current if and only if the offer speaks for the session and it is still wanted: a new generation, the next revision, a live session to release, one with nothing pending to end. |
| SessionStory.ChangedForItsOwner | backend/app/command_subjects.py:142-262 | No commit changes a session, or an existing attempt of it, for another account, browser, attempt or principal. |
| SessionStory.TerminalCloseSilences | backend/app/command_subjects.py:235-262 | After a terminal close no acknowledgement publishes to that session, over any run, until its state moves again. |
| SessionStory.IdleReleaseChangesNothing | backend/app/command_subjects.py:235-262 | After an idle release every acknowledgement publishes if and only if it would have before. |
| SessionStory.OpeningSupersedes | backend/app/command_subjects.py:340-385 | Over every run, once a generation was opened no update of an earlier one takes effect. |
| SessionStory.AcceptedUpdateTakesEffect | backend/app/command_store.py:901-941 | A committed update that is accepted takes effect if and only if session, attempt, range, owner, principal and key are those of a running session, and then both sides hold what was asked for. |
| SessionStore.Rows.OpenSession | backend/app/command_subjects.py:340-415 | The upsert and the attempt row in place: both or neither, an existing row keeping its owner. |
| SessionStore.Rows.UpdateSession | backend/app/command_subjects.py:142-207 | The compare-and-set in place, with its staleness checks. |
| SessionStore.Rows.CloseSession | backend/app/command_subjects.py:208-262 | Release and terminal close in place, refused while a command is pending. |
| SessionStore.Rows.TakeEffect | backend/app/command_store.py:901-941 | An accepted update takes effect and is published exactly when everything it was built for still stands and its revision is newer. |
| SessionRuns.EachCommandPublishesOnce | backend/app/command_store.py:901-941 | Over every run no command is published twice, across stale and repeated acknowledgements. |
| SessionRuns.ReachableOrderDoesNotMatter | backend/app/command_store.py:842-994 | After any run, any order and repetition of one acknowledgement per command ends in the same floors, rows and effective parameters. |
| AckOrder.AcksCommuteOnConnection | backend/app/command_store.py:965-994 | Acknowledgements of two commands of one connection commute. |
| AckOrder.AckTwice | backend/app/command_store.py:864-867 | A repeated acknowledgement leaves the connection as it is. |
| AckOrder.FirstStands | backend/app/command_store.py:864-867 | Of two acknowledgements of one sequence the first recorded one stands. |
| AckOrder.SameSequenceOnConnection | backend/app/command_store.py:864-880 | On the journal alone two changing acknowledgements of one command commute if and only if they are equal or the floor passes the row at once. |
| AckOrder.SameCommandCommutes | backend/app/command_store.py:864-994 | Over floors, rows, lifecycle and effective parameters two acknowledgements of one command commute if and only if one changes nothing, they are the same message, or the floor passes the row and neither would publish. |
| AckOrder.AcceptedAndRefusedDiffer | backend/app/command_store.py:901-941 | One pending update, accepted and refused: the journal ends the same in both orders, the effective parameters do not. |
| AckOrder.AcksCommute | backend/app/command_store.py:901-994 | Acknowledgements of different commands commute across connections too, effective session parameters included. |
| AckOrder.PublishedUnlessOvertaken | backend/app/command_store.py:901-941 | After any order and repetition of other commands' acknowledgements, one publishes if and only if it would have at once and none of them carried its revision or a later one of its session. |
| AckOrder.AckRepeats | backend/app/command_store.py:842-964 | A repeated acknowledgement changes nothing anywhere. |
| AckOrder.AckPublishesOnce | backend/app/command_store.py:901-941 | A repeated acknowledgement publishes nothing. |
| AckOrder.OrderDoesNotMatter | backend/app/command_store.py:842-994 | Folding two sequences with the same set of acknowledgements, one per command, gives the same world. |
| Dispatcher.CustodyStep | backend/app/jobs.py:1582-1637 | Every step keeps a live job arriving, queued, parked, held, in flight or lost, if and only if it is not one of two named stranding steps; a restart tracks every live job. |
| Dispatcher.NoJobIsStranded | backend/app/jobs.py:1544-1566 | Over every run a live job is untracked if and only if some stranding step let go of it and no restart and no naming worker has found it since. |
| Dispatcher.OnlyLateReportsStrand | backend/app/jobs.py:2018-2042 | A report strands a job only when it speaks for attempt one of a job queued for attempt two. |
| Dispatcher.AJobIsStranded | backend/app/jobs.py:1616-1624 | A concrete reachable state with a live job that nothing tracks. |
| Dispatcher.RowsMoveForward | backend/app/jobs.py:2554-2578 | Terminal rows never change, rows never vanish, attempts never fall and never exceed two. |
| Dispatcher.OneVerdict | backend/app/jobs.py:2112-2145 | Over every run at most one verdict, cancellation or failure commits for a job, exactly one if the job is over. |
| JobStory.EndingTellsTheRun | backend/app/jobs.py:2112-2189 | Over every run a row is Succeeded if and only if a good verdict, or a receipt of one found at a restart, committed; Cancelled if and only if a cancellation did; Failed after every other ending. |
| JobStory.LiveRowTellsTheRun | backend/app/jobs.py:2554-2578 | Over every run a live job is running if and only if a dispatch of it committed and was not retried since, and its attempt is one plus its retries, of which there is one at most. |
| JobStory.EveryTrackedJobCanEnd | backend/app/jobs.py:1582-1637 | From every reachable state a tracked live job can still succeed by ordinary steps alone; a second attempt whose entry is gone can still be failed. |
| JobStory.HintsAreConserved | backend/app/jobs.py:1582-1637 | Every step takes away exactly the hints it lets go of and adds exactly those it gains; a restart leaves one of each queued job. |
| JobStory.HintsArePlaced | backend/app/jobs.py:1582-1637 | What cannot be dispatched now is set aside, what needs recovery is given to recovery, and nothing else is. |
| JobStory.AsideUntilThePassEnds | backend/app/jobs.py:1582-1637 | A hint set aside stays aside until the pass ends or the process restarts. |
| JobStory.NobodyIsOverloaded | backend/app/jobs.py:1521-1532 | Over every run no worker is counted for more than two jobs, but for those it claims to have been given. |
| Dispatcher.VerdictNamesCurrentAttempt | backend/app/jobs.py:2112-2121 | A verdict commits only from an entry of the attempt the row is on. |
| Dispatcher.NextKeepsInv | backend/app/jobs.py:1822-1911 | Every step keeps the custody invariant: a running job has an entry of its own attempt or somebody about to requeue it, and each dispatch stage owns its row as it believes. |
| Dispatcher.ClampNeverBites | backend/app/jobs.py:1531-1532 | Whenever a step releases a slot the counter is positive. |
| Dispatcher.SlotsAccount | backend/app/jobs.py:1738-1769 | For every worker not reported lost the counter is its entries plus its displaced entries. |
| Dispatcher.SlotsStep | backend/app/jobs.py:1914-1928 | Each step changes a connected worker's surplus by one exactly when it displaces one of its entries. |
| Dispatcher.ASlotLeaks | backend/app/jobs.py:1853-1857 | A concrete reachable state in which a connected worker counts two slots for one entry. |
| DispatcherMemory.PickJobWorker | backend/app/jobs.py:1521-1528 | Picks the first least-loaded free worker, or none exactly when none is free. |
| DispatcherMemory.Memory.ClearIfCurrent | backend/app/jobs.py:1914-1928 | Clears only the very entry it was given, with its slot, in place. |
| DispatcherMemory.Memory.OnWorkerLost | backend/app/jobs.py:2587-2596 | The loop moves exactly the worker's entries to the lost list and leaves every counter. |
| DispatcherMemory.Memory.ReleaseJobSlot | backend/app/jobs.py:1531-1532 | One slot less, never below zero. |
| Lineage.OrderedListsAll | backend/app/jobs.py:937-963 | The candidate order lists each child once, by creation time and then id. |
| Lineage.ChildDistance | backend/app/jobs.py:943-953 | A child met for the first time is one further from the root than its only parent. |
| Lineage.StepKeepsInv | backend/app/jobs.py:910-974 | Every step keeps distinct, owned jobs at their true depth in breadth-first order, at most 600 of them, and accounts for every child left out. |
| Lineage.StepKeepsHidden | backend/app/jobs.py:917-921 | Each counted overflow leaves behind a job of its own that never comes back. |
| Lineage.CompleteOrTruncated | backend/app/jobs.py:917-921 | The walk is untruncated if and only if it returns the whole reachable set, and the hidden count never exceeds what it left out. |
| Lineage.NearestFirst | backend/app/jobs.py:927-936 | No job left out is nearer than one returned, and below 600 nodes only jobs deeper than 100 are left out. |
| Lineage.Subtree | backend/app/jobs.py:892-988 | The walk ends on every graph, cycles included, with all of the above; children of an earlier job come earlier, children of one job by creation time and id, none is left out for a later one, and the hidden count is the number of returned jobs with a child left out; it answers nothing exactly when the root is not an eligible job of the user. |
| Lineage.AnswerIsTheUsers | backend/app/jobs.py:950-963 | Every returned job is the user's with an image of its own, and each but the root was made from a non-thumbnail image of a returned job. |
| RateLimit.Delays | backend/app/rate_limit.py:64-68 | No delay for five attempts, then 0.5 s doubling to 8 s; none can be computed from attempt 1030 on. |
| RateLimit.NextKeepsInv | backend/app/rate_limit.py:71-102 | Every attempt and pruning keeps the turns of a window spaced by their charged delays and inside its bounds. |
| RateLimit.AdmittedInTurn | backend/app/rate_limit.py:125-135 | An admitted attempt waits between 0 and 30 s and at least its delay after the turn before. |
| RateLimit.AnsweredExactly | backend/app/rate_limit.py:105-135 | Over every run an attempt gets exactly the latest turn of its window, or now, plus the delay of its number there, if that is within thirty seconds; is refused if it is not; and fails if there is no such delay. |
| RateLimit.AttemptsAreCharged | backend/app/rate_limit.py:71-102 | The stored count is the number of attempts of the window that did not fail, refused ones included. |
| RateLimit.PruningChangesNothing | backend/app/rate_limit.py:211-221 | Pruning is invisible: every attempt asked later gets the same answer and leaves the same row. |
| RateLimit.AtMost86 | backend/app/rate_limit.py:125-135 | One address is admitted at most 86 times in a window, plus one per eight seconds a row lock can delay an attempt. |
| RateLimit.RefusalsLeaveTheQueue | backend/app/rate_limit.py:117-135 | An attempt of an open window that is refused or fails moves neither turns nor expiry; a refused one is counted all the same, a failed one is not. |
| RateLimit.RoomAfterEightSeconds | backend/app/rate_limit.py:125-135 | Eight seconds after the latest admission an attempt is admitted if and only if its window has charged fewer than 1029 attempts. |
| RateLimit.OverflowLasts | backend/app/rate_limit.py:64-68 | At 1029 charged attempts every further attempt of the window fails and is not counted. |
| RateLimit.ABystanderFails | backend/app/rate_limit.py:125-135 | A concrete run of 1029 attempts after which one that comes eight seconds and more after the latest admission fails. |
| RateLimit.TenPerWindow | backend/app/rate_limit.py:188-199 | Of any attempts against one identifier in one window exactly the first ten pass the ceiling. |
| RateLimit.Store.ChargeRow | backend/app/rate_limit.py:71-102 | The upsert: count, or reset an expired row with its turn. |
| RateLimit.Store.ReserveTurn | backend/app/rate_limit.py:105-135 | Charge, then take the next turn unless it is more than 30 s out. |
| RateLimit.Store.ChargeLogin | backend/app/rate_limit.py:168-208 | A spent identifier leaves the address untouched, a busy address charges both rows and moves no turn, an overflow leaves nothing behind. |
| Challenges.AtMostOneLive | backend/app/factors.py:156-167 | Since the latest begin at most one challenge of an account is live at any instant. |
| Challenges.RunKeepsBudget | backend/app/factors.py:143-226 | Over every run a chain of carried challenges counts at most ten guesses. |
| Challenges.FreshIsLate | backend/app/factors.py:157-167 | A fresh budget opens only after a success spent the latest token, or after the whole lifetime of the budget before. |
| Challenges.TwentyGuesses | backend/app/factors.py:143-226 | After any history, successes included, any ten minutes without a success hold at most twenty counted guesses. |
| Challenges.TwentyIsReached | backend/app/factors.py:143-226 | The bound of twenty is attained. |
| Challenges.CarriesExactlyIff | backend/app/factors.py:156-167 | A begin carries what the latest token had spent, or nothing, if and only if no earlier charged token looks live to it. |
| Challenges.AStaleClockOvercharges | backend/app/factors.py:156-167 | A concrete run in which a fresh budget is charged for a guess at a lapsed token. |
| Challenges.LookedAtExactly | backend/app/factors.py:213-226 | With clocks that do not run backwards an answer is looked at if and only if its token is the latest, unspent, under ten minutes old, and fewer than ten guesses were counted on its budget. |
| Challenges.WonOnce | backend/app/factors.py:242-250 | A token that won is spent for good. |
| Challenges.Tokens.Begin | backend/app/factors.py:143-167 | Beginning consumes every live token, sums what they spent and mints one that carries it. |
| Challenges.Tokens.Answer | backend/app/factors.py:213-226 | An answer is counted exactly when the token is live and below ten. |
| Factors.SpentAtMostOnce | backend/app/factors.py:362-385 | Each recovery code is spent at most once and each factor's time steps only upwards. |
| Factors.NoSessionPastTheGate | backend/app/factors.py:101-133 | Every live session was opened or carried over behind the factor the account has now. |
| Factors.TenTriesBetweenSignIns | backend/app/factors.py:444-463 | A session gets ten tries at replacing a factor until that factor is proved at a sign-in. |
| Factors.NextKeepsInv | backend/app/factors.py:551-710 | Sign-in, removal, enrolment, replacement and the operator's clearing keep all of this. |
| FactorStory.AccountTellsTheRun | backend/app/factors.py:525-708 | Over every run factor, codes, sessions and spent credentials are exactly what the transactions that took effect made of them. |
| FactorStory.SpendableExactly | backend/app/factors.py:362-385 | Over every run a recovery code can be spent if and only if it was issued with the present factor and never accepted, a time step if and only if it is above every step accepted for the present factor. |
| FactorStory.FreshCodesWork | backend/app/factors.py:690-692 | Every code of a confirmation that took effect can be spent right after it, and the next time step too. |
| FactorStory.TryCountedExactly | backend/app/factors.py:444-463 | A replacement try is counted if and only if fewer than ten were since the factor was last proved at a sign-in. |
| Factors.FactorRows.SpendProof | backend/app/factors.py:362-385 | The conditional update spends a proof exactly when it is unspent, in place. |
| Factors.FactorRows.CountTry | backend/app/factors.py:444-463 | A replacement try is counted exactly while fewer than ten are. |
| Factors.FactorRows.AnswerChallenge | backend/app/factors.py:238-274 | The winning transaction of a sign-in spends the proof and only then clears the tries. |
| Factors.FactorRows.MintBehindTheGate | backend/app/factors.py:127-133 | A session is minted exactly when the current factor is the one that was passed. |
| Factors.FactorRows.RemoveFactor | backend/app/factors.py:525-548 | Removal takes factor, codes and other sessions, or rolls the spent proof back. |
| Factors.FactorRows.ConfirmEnrolment | backend/app/factors.py:614-708 | Enrolment or replacement installs factor, codes and session together, or rolls everything back. |
| Audit.SettleRemovesTheSent | backend/app/audit.py:107-127 | Settling removes exactly what is left of the records the insert carried, whatever overflowed or spooled meanwhile. |
| Audit.NothingVanishes | backend/app/audit.py:90-128 | Over every run a record is inserted, waiting, in flight, spooled or counted as dropped if and only if its task was not cancelled before its insert took effect; the spool never exceeds 1000. |
| Audit.GapIsReported | backend/app/audit.py:107-140 | Drops and fallbacks never exceed live counters plus inserted markers, and equal them unless an insert took effect unknown to its sender. |
| Audit.FallBacksAreCounted | backend/app/audit.py:101-118 | The counters behind the markers count exactly the fall-backs and drops of the run. |
| Audit.InsertedExactly | backend/app/audit.py:107-127 | Over every run a record is in the table if and only if an insert that took effect carried it. |
| Audit.FlushesTheSpool | backend/app/audit.py:107-127 | A successful insert takes its own record and everything spooled when it began, and leaves none of that spooled, whatever happened meanwhile. |
| Audit.OldestGoFirst | backend/app/audit.py:143-148 | The spool keeps the order of falling back, and whatever was dropped had fallen back before everything held. |
| Audit.DropsOnlyWhenFull | backend/app/audit.py:143-148 | A record is dropped only as the oldest of a thousand, by one that falls back. |
| Audit.LostExactlyByCancellation | backend/app/audit.py:90-128 | Over every run a record is in none of those places if and only if some step cancelled its task while it waited, or while it was in flight in an insert that did not reach the database. |
| Audit.RecordsAreLost | backend/app/audit.py:90-99 | Two concrete runs that lose a record, one of each kind. |
| Audit.Spool.PushRecord | backend/app/audit.py:143-148 | Push in place, dropping and counting the oldest. |
| Audit.Spool.Settle | backend/app/audit.py:124-127 | The settle loop in place. |
| StartupLock.NextKeepsInv | backend/app/db.py:336-457 | Every step keeps the holder count equal to the active contexts and the guard as the owner's stage expects it. |
| StartupLock.HeldWhileAnyBodyRuns | backend/app/db.py:402-414 | While any body runs the connection is held, and holders counts the active contexts. |
| StartupLock.OwnerClosesLast | backend/app/db.py:428-457 | The owner may close exactly when all others have left, its count is then one, and each connection is closed once. |
| StartupLock.EntersExactly | backend/app/db.py:349-380 | A context gets in if and only if the owner is not closing: as owner when alone, waiting for the acquisition under way, or at once. |
| StartupLock.NobodyIsStuck | backend/app/db.py:336-457 | While anybody is inside, some step other than an entry or a cancellation is possible, and every step but an entry leaves less to do. |
| StartupLock.ResolvedOnce | backend/app/db.py:417-425 | `borrowers_done` and the acquisition are only ever resolved while pending. |
| StartupLock.FailureLeavesNoTrace | backend/app/db.py:384-425 | After a failed acquisition nobody runs a body and the last borrower's exit restores the initial guard. |
| StartupLock.LockGuard.TryEnter | backend/app/db.py:349-362 | Entering in place: refused while closing, owner when first. |
| StartupLock.LockGuard.ReleaseBorrower | backend/app/db.py:417-425 | A borrower's exit in place. |
| StartupLock.LockGuard.GiveUpAcquisition | backend/app/db.py:396-401 | A failed owner's exit in place. |
| StartupLock.LockGuard.StartClosing | backend/app/db.py:431-434 | The owner starts closing and learns whether to wait. |
| StartupLock.LockGuard.TakeConnection | backend/app/db.py:442-447 | The count and the connection are given up exactly when the count is one. |
| StartupLock.LockGuard.FinishClosing | backend/app/db.py:451-455 | After the close the guard is open again. |
| StartupLock.RunToCompletion | backend/app/db.py:53-73 | Returns only after the work really ended, with the last cancellation if there was one. |
| Banner.ReadAfterAnsweredWrite | backend/app/banner.py:43-67 | A set or clear answered at one step of a run and a read of that replica begun at a later one: the answer of the read, if its load succeeded, is that write or a later one. |
| Banner.ReadsSeeAnsweredWrites | backend/app/banner.py:49-67 | Every answer is at least as new as what its replica had answered when the read began, or no banner because a load failed. |
| Banner.AnsweredWritesStay | backend/app/banner.py:43-46 | Once a write was answered every later read of that replica starts above it. |
| Banner.ReplicasCatchUp | backend/app/banner.py:3-11 | On every other replica a write is seen at the latest five seconds after its commit. |
| Banner.AnswersItsLoad | backend/app/banner.py:49-67 | A read not served from the cache answers every set and clear committed by its load, and no banner only if that load failed. |
| Banner.KeptExactly | backend/app/banner.py:57-67 | What a read loaded is cached if and only if no set or clear was answered on its replica while it was under way. |
| Banner.CacheServesExactly | backend/app/banner.py:54-56 | A cached value serves exactly the reads that start within five seconds of the one that loaded it, until a write is answered or another read finishes there. |
| Banner.Cache.Invalidate | backend/app/banner.py:43-46 | Invalidation in place. |
| Banner.Cache.Lookup | backend/app/banner.py:49-56 | A hit only within the lifetime. |
| Banner.Cache.Keep | backend/app/banner.py:57-67 | A value is kept only if the generation is still the one the read began with. |
| KeyRing.ParseRootKeys | backend/app/keyring.py:30-63 | Accepts exactly well-formed rings with strictly descending versions and distinct keys, and otherwise blames the first item that breaks one. |
| KeyRing.CheckItem | backend/app/keyring.py:35-59 | The refusal of an item is the first of the checks, in the code's order, that it fails, and none exactly when it passes them all. |
| KeyRing.SplitUndoesJoin | backend/app/keyring.py:35-36 | The items are exactly what stands between the commas. |
| KeyRing.PartitionCutsAtTheFirst | backend/app/keyring.py:36-39 | An item is cut at its first colon, if it has one. |
| KeyRing.WritesWithTheNewest | backend/app/keyring.py:74-101 | A parsed ring holds every listed key and writes with its greatest version. |
| KeyRing.AssociatedDataIsInjective | backend/app/keyring.py:25-27 | Different pairs of purpose and context never share associated data. |
| KeyRing.DecryptUndoesEncrypt | backend/app/keyring.py:112-132 | Decryption returns the plaintext if and only if purpose, context and the writing root key agree. |
| KeyRing.OpensOnlyWhatWasSealed | backend/app/keyring.py:112-132 | A blob opens to a plaintext if and only if it is the encryption of it for that purpose and context under a key of the ring. |
| KeyRing.RotationKeepsTheSecret | backend/app/keyring.py:134-135 | A row that can be read can be rotated, and then the newest key alone reads the same secret. |
| KeyRing.RotateKeys | backend/app/operator.py:199-232 | Rotation rewrites every row under the newest key or fails as a whole, and every secret stays readable after retiring the other keys. |
| KeyRing.RotationLosesNothing | backend/app/operator.py:199-208 | Adding a key, rotating and retiring the rest keeps every readable secret readable. |
| StorageKeys.PrintingIsInjective | backend/app/jobs.py:217-226 | Two objects never share a key, across areas, users, jobs, attempts and renditions. |
| StorageKeys.SuccessOrphanKeys | backend/app/jobs.py:229-238 | The list is exactly all uploads of attempts 1..n and the library copies of attempts 1..n-1. |
| StorageKeys.AttemptKeys | backend/app/jobs.py:2276-2291 | The failure list is exactly every upload and library copy of attempts 1..n. |
| StorageKeys.OrphansExactly | backend/app/jobs.py:2190-2196 | A key is deleted after success if and only if it is this job's upload or an earlier library copy, never the winner's nor another job's. |
| StorageKeys.NothingIsLeftOver | backend/app/jobs.py:229-238 | Orphans and the winner's library copies are together every key of attempts 1..n. |
| Subscriber.RunKeepsSlot | backend/app/jobs.py:289-312 | The slot always holds the last unread terminal event, or else the last unread event. |
| Subscriber.TerminalIsReadNext | backend/app/jobs.py:289-312 | Once a terminal event is published the next read returns the newest terminal one, whatever progress follows. |
| Subscriber.ReadsFollowPublishes | backend/app/jobs.py:1471-1491 | What a stream reads is a subsequence of what was published. |
| Subscriber.Slot.Deliver | backend/app/jobs.py:289-312 | The publishing loops end and leave exactly that event. |

## Left out

- Waits on unique-index insert conflicts, and the collapse's ordering of its own table deletions: the lock programs contain row and advisory locks only.
- `FOR SHARE` locks are taken as exclusive, so the deadlock results cover more blocking than PostgreSQL has, and lock timeouts are not used: the order alone excludes cycles.
- Worker reports (`worker_authority.py`) enter the journal only through the erasure they cause; their receipts and physical ranges are not part of this model.
- Rows that another part of the backend deletes: sessions with their account, jobs with their account.
- The checks of a commit's arguments before its transaction (backend/app/command_store.py:187-191). The transaction's own refusals are ordered by step: everything that makes the subject stale is one refusal, and an attempt row that already exists is refused there instead of when its insert collides.
- A journal starts empty with `next = floor + 1`, and session attempts are keyed by session and control generation, as the reads at backend/app/command_subjects.py:590-602 rely on.
- Acknowledgements carry exactly the fields that backend/app/command_store.py:157-161 requires and fit the size limit, so a recorded one is known when read again.
- Dispatcher: the clock of the stall sweep (any entry may be swept at any idle moment), the order of the priority queue and of the list of lost jobs (both are multisets), the dispatch epoch that only the test suite bumps, process cancellation, and what a worker's output looks like; a worker reports `job_cancelled` only for a job that was cancelled. More interleavings are allowed than the code has: a recovery may start at any idle moment, a report may act at any time after it was heard, and a protocol 6 worker may track any job it was once given.
- Dispatcher.VerdictNamesCurrentAttempt: speaks of attempts, not of dispatch tokens: two dispatches of one attempt are told apart by the identity of their entries.
- Lineage: the columns of the final join; the walk ends where the recursive query ends.
- RateLimit: real numbers stand for times and delays; only the overflow of the power is modelled of floating point. The sleep itself is the caller's.
- RateLimit.AtMost86: turns of two windows of one address may overlap by the thirty seconds a queue can reach, as the reset drops the turn with its window.
- Factors: the codes' digits, the sealed enrolment and its thirty minutes, the five-minute recent-authentication window, and sessions minted by the one-time setup link.
- Audit: the contents of a record; search, export and retention.
- StartupLock: one event loop closes what it opened; the cross-loop refusal at closing is not part of this model.
- Banner: validation of the text; a load that fails is answered as no banner and cached like any other value.
- KeyRing: trimming, integer parsing and base64 are parameters of the parser; key derivation and AES-GCM are ideal; a purpose longer than 2^32 - 1 bytes, which the length prefix cannot hold, is excluded.
- StorageKeys: users and jobs are their 36-character UUID texts; deleting, promoting and recording failed deletions is I/O.
- Subscriber: one queue at a time; a stream's snapshot and its subscription may miss an event between them, so only the queue is claimed.
- HTTP routes, mail, OAuth, realtime transport, GPU samples, benchmarks, manifests, text search and serialization: plumbing, or members that would only be easy.

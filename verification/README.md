# Verification of the Python tooling

The Python tools of this repository decide, without a person watching, whether a crate graph is acyclic, whether a copied
environment may be written to once more, which process may be killed and which migration may never change again. This
project models that logic in Dafny and proves what it is for. `dafny verify dfyconfig.toml` checks everything.

The model follows the source file by file:

* **Crate graph** (`Reachability`, `Ordering`, `Tarjan`). The recursive search of `strongly_connected_components` is the
  class `Finder`, whose fields are the variables the closure shares. Its invariant is tied to reachability by paths;
  nodes and edges come in any order.
* **Copy ledger** (`Ledger*`). `project` and `apply_step` are a class that mutates the projected
  state, proved against the replay function. The journal is a chain of digests with a separate head file. `CloneLedger`
  is a class over a directory; each of its file operations may be the last one before a crash. Its methods are proved to
  take only effects that the transition system of `LedgerRuns` permits, and the safety results are about every run of
  that system: any number of processes, crashes between any two effects, and writes that may or may not take effect.
* **Department attempts** (`Department*`). `apply_one` and `reconcile_one` write evidence files around one request; the
  validator `action_history` is modelled on its own. The results say which chains the validator accepts, when a request is
  repeated, and how many departments the product creates when requests land late.
* **Identity lock** (`IdentityLock`). Rename to a tombstone, pending file, hard link, unlink; the lock may be replaced at
  any moment and the process may die at any effect, or inside the pending write.
* **Producer history** (`Producer*`). The start and stop controls write a log; an independent automaton reads it.
* **Process tree, SQL literals, migration lock, placements, stream search** (`ProcessTree`, `SqlLiterals`, `SqlGrammar`,
  `MigrationLock`, `MigrationPaths`, `MigrationFreeze`, `Placement`, `StreamSearch`). Each algorithm is proved against a
  specification that does not mention how it works.

## What holds, and what does not

Some promises hold only under a condition. For each of these the code is modelled as it is and the exact condition is
proved:

* A ledger can be resumed to its end exactly when no unregistered step is planned before one that waits at its before
  image (`LedgerResume.WorkAccepted`). Every journal that the tools produce satisfies this: a first copy, then
  reconciliations and resumptions in any order, each cut off anywhere and closed, failed or faulted
  (`LedgerSittings.JournalsArePlanDriven`). So from each of them one clean reconciliation and one resumption complete the
  plan (`LedgerSittings.RecoveryCompletes`).
* A department chain that ends confirmed is accepted exactly when its last attempt records no mismatch and no torn
  reconciliation, its abandoned before images are whole and show the planned directory, and no attempt after an intent
  lacks one. The last condition matters: a crash between `before.json` and `intent.json` makes the next attempt draw a new
  idempotency key, exactly then (`DepartmentSecond.NewKeyExactly`). In every reachable state requests that land late can
  create a second department exactly when two attempts whose keys are still under way or have created one are separated by
  such a crash (`DepartmentSecond.SecondIffSeparated`); `DepartmentLostKey.LostKeyCreatesTwice` is such a run.
* After a crash in the release of an identity lock, one more call finishes it exactly when the pending file is not torn
  and no older release record carries the same owner token. Nothing checks the second condition before the rename.
* A producer history is accepted exactly when there is one, every intent was answered and got its log file, no log outgrew
  what the validator reads, and no process that was started without a record was stopped or is named by a receipt
  (`ProducerRuntime.AcceptedExactly`, and `ProducerControl.OperateNew` for every sequence of controls). Three runs of the
  controller end in a history that is refused: the log could not be created (`ProducerWitness.LogMissingRefused`),
  the start could not be recorded (`NotRecordedRefused`), or the controller died before recording it and a later stop ended
  the process (`StoppedLaterRefused`). When no start is cut like this, answering every intent is enough.
* `freeze` writes `frozen_at` and every path between quotes as they are. The lock it writes passes the stable check exactly
  when none of them holds a quote, a backslash or a control character other than a tab, and no new file reuses a target
  that is frozen in the commit; `freeze` itself looks at neither (`MigrationFreeze.FreezeThenCheck`, and
  `FreezeThenBootstrap` where the commit has no lock). `MigrationFreeze.EscapeRefused` is a failing input.
* The search for the online generator reports a permission that a chunk end cuts off from a following lower-case letter
  (`StreamSearch.OnlineFoundExactly`); it never misses one.

## Model

| member | source | states |
|---|---|---|
| Reachability.CycleIsMutualOrLoop | tools/python/check_architecture.py:282-291 | a node lies on a directed cycle if and only if it has a self-loop or another node is mutually reachable with it, the test `cyclic_components` relies on |
| Reachability.ClosedReach | tools/python/check_architecture.py:250-275 | a set closed under edges contains everything reachable from it, so emitted components are never left |
| Ordering.Sorted | tools/python/check_architecture.py:271-278 | `sorted` on names: ascending and a rearrangement |
| Tarjan.RetireKeepsInvariant | tools/python/check_architecture.py:263-264 | returning early from `visit` when the low link is below the node's own index keeps the search invariant |
| Tarjan.EmitKeepsInvariant | tools/python/check_architecture.py:263-271 | emitting the popped members as a component keeps the search invariant |
| Tarjan.PortionMutual | tools/python/check_architecture.py:263-271 | when a root is about to be emitted, everything on the stack from it upward is mutually reachable with it |
| Tarjan.Finder.PopThrough | tools/python/check_architecture.py:265-270 | the pop loop removes exactly the stack from its top down to the node, and collects it |
| Tarjan.Finder.Consider | tools/python/check_architecture.py:257-262 | handling one edge keeps the invariant and bounds the low link, whether the target is new, on the stack or emitted |
| Tarjan.Finder.Visit | tools/python/check_architecture.py:250-271 | the recursive visit terminates, discovers the node and everything reachable, and emits every component rooted in it |
| Tarjan.Finder.Close | tools/python/check_architecture.py:263-271 | a node whose low link equals its index closes exactly the class of nodes mutual with it |
| Tarjan.Finder.Run | tools/python/check_architecture.py:273-275 | the outer loop over the sorted nodes discovers every node |
| Tarjan.BuildGraph | tools/python/check_architecture.py:238-241 | the dictionary holds every listed node and every edge endpoint, each with exactly the targets of its edges, in the order of the edges |
| Tarjan.StronglyConnectedComponents | tools/python/check_architecture.py:234-279 | for nodes and edges in any order the result decomposes the graph: sorted, non-empty, disjoint components that are exactly the classes of mutual reachability, in reverse topological order |
| Tarjan.SharedComponentIsMutual | tools/python/check_architecture.py:234-279 | two nodes share a component if and only if each reaches the other |
| Tarjan.ComponentsPartition | tools/python/check_architecture.py:234-279 | every node, unlisted edge endpoints included, is in exactly one component |
| Tarjan.ReverseTopological | tools/python/check_architecture.py:265-279 | an edge between different components goes from a later one to an earlier one |
| Tarjan.EarlierNeverLeads | tools/python/check_architecture.py:250-279 | a component never leads to one emitted after it, by any path |
| Tarjan.CyclicKeepsOrder | tools/python/check_architecture.py:287-291 | the filter keeps the order in which components were emitted |
| Tarjan.ComponentOnCycle | tools/python/check_architecture.py:286-291 | the filter of `cyclic_components` keeps a component exactly when its members lie on a cycle |
| Tarjan.CyclicComponents | tools/python/check_architecture.py:282-291 | the components returned are exactly the classes of nodes on a directed cycle, self-loops included, each once, and none before one it leads to; nothing is returned exactly when the graph is acyclic |
| LedgerEvents.Projection.ApplyStep | tools/python/devex_clone_ledger.py:149-185 | the mutation of one step event is the specified step, and a refused event changes nothing |
| LedgerEvents.Projection.ApplyEvent | tools/python/devex_clone_ledger.py:101-146 | the body of the replay loop, case by case, is the specified advance |
| LedgerEvents.Project | tools/python/devex_clone_ledger.py:101-146 | `project` accepts exactly the journals the replay function accepts, with the same state |
| LedgerEvents.ReplayAppend | tools/python/devex_clone_ledger.py:101-146 | replaying a longer journal is one incremental step after replaying the shorter one |
| LedgerHistory.AdvanceSteps | tools/python/devex_clone_ledger.py:121-185 | only a step event inside an open session changes a step, and only the one it names |
| LedgerHistory.StepsWellFormed | tools/python/devex_clone_ledger.py:149-170 | in every accepted journal at most one step is unknown, resources are pairwise distinct, and every before and after image can be told apart |
| LedgerHistory.StepImages | tools/python/devex_clone_ledger.py:89-98 | the two images of a step are of one resource and differ: a database keeps schema and preserved rows, an object was absent and is present |
| LedgerHistory.ReconciledOnce | tools/python/devex_clone_ledger.py:171-177 | a session reconciles a step at most once, and only if it did not touch it before |
| LedgerHistory.PhaseAndAttempt | tools/python/devex_clone_ledger.py:163-184 | each phase is the classification of the step's latest observation, and attempts are one more than its resumptions |
| LedgerHistory.StepsPersist | tools/python/devex_clone_ledger.py:149-185 | a registered step stays registered with the same images and artifact |
| LedgerHistory.BeforeWasSeen | tools/python/devex_clone_ledger.py:171-177 | a step is `reconciled_before` only if its last word is a reconciliation that saw the complete before image |
| LedgerHistory.SecondAuthorisationNeedsBefore | tools/python/devex_clone_ledger.py:153-184 | between two authorisations of one step there is a reconcile session that saw its complete before image |
| LedgerHistory.SealedNeedsReconcile | tools/python/devex_clone_ledger.py:119-138 | after a session that ended open, failed or publishing no write is authorised before a reconcile session closes as partial |
| LedgerFiles.Read | tools/python/devex_clone_ledger.py:227-248 | `_read` returns the lines exactly when they form a whole linked chain, are accepted, and the head names the last one and the binding |
| LedgerFiles.SameDigestSameJournal | tools/python/devex_clone_ledger.py:236-246 | two linked journals with the same last digest are the same journal |
| LedgerFiles.HeadFixesJournal | tools/python/devex_clone_ledger.py:227-248 | one head file admits at most one journal |
| LedgerFiles.AppendCrash | tools/python/devex_clone_ledger.py:250-274 | wherever an append is cut off, torn line and old head included, a reader rejects, sees the old events, or sees the old events and the new one |
| LedgerFiles.FirstAppendCrash | tools/python/devex_clone_ledger.py:250-274 | the same for the append that creates both files |
| LedgerFiles.NextIsLinked | tools/python/devex_clone_ledger.py:260-266 | the frame an append writes extends the chain |
| LedgerSafety.AdvanceConsistent | tools/python/devex_clone_ledger.py:149-185 | an accepted event with truthful observations keeps journal and resources in agreement, and never authorises a write while an older authorisation is unused |
| LedgerSafety.WriteConsistent | tools/python/devex_clone_ledger.py:149-185 | the one write of an authorisation takes its resource from the before image, which was never changed before |
| LedgerSafety.FinishablePublishes | tools/python/devex_clone_ledger.py:400-406 | what `finish` demands is what a publishing close claims |
| LedgerSafety.NextKeeps | tools/python/devex_clone_ledger.py:250-418 | every effect, write, crash, start and removal of a stale lock keeps the invariant of journal, memory, authorisation and resources |
| LedgerSafety.RunInvariant | tools/python/devex_clone_ledger.py:188-449 | the invariant holds at every point of every run |
| LedgerSafety.AtMostOneEffect | tools/python/devex_clone_ledger.py:153-184 | in every reachable state, crashes anywhere, each resource was changed at most once |
| LedgerSafety.PublishedExactlyOnce | tools/python/devex_clone_ledger.py:356-418 | a publishing close in the journal means that every step's resource was changed exactly once |
| LedgerSafety.PublishedNonEmpty | tools/python/devex_clone_ledger.py:400-406 | a publishing close covers a non-empty set of confirmed steps; from a reconcile session, all of them reconciled in it |
| LedgerSafety.PhasesAreTrue | tools/python/devex_clone_ledger.py:163-184 | what the journal calls confirmed or reconciled before is what the resource looks like now |
| LedgerObject.FollowsJoin | tools/python/devex_clone_ledger.py:250-418 | sequences of permitted effects compose |
| LedgerObject.AppendsIff | tools/python/devex_clone_ledger.py:250-274 | an append succeeds exactly when the object holds its lock and the journal it remembers, the event is acceptable and fits, and nothing stops it; it is then as sound as before |
| LedgerObject.CloneLedger.constructor | tools/python/devex_clone_ledger.py:189-208 | a new object has read nothing, holds no lock and is neither poisoned nor finishing |
| LedgerObject.CloneLedger.Checked | tools/python/devex_clone_ledger.py:250-259 | the tests before an append: own lock, unchanged files, acceptable event, bounded size |
| LedgerObject.CloneLedger.WriteFiles | tools/python/devex_clone_ledger.py:260-274 | the file operations of one append, each of which may be the last |
| LedgerObject.CloneLedger.AppendEvent | tools/python/devex_clone_ledger.py:250-274 | memory and files move together or the object is poisoned |
| LedgerObject.CloneLedger.Release | tools/python/devex_clone_ledger.py:321-329 | the lock is removed exactly when this object holds it and removing works |
| LedgerObject.CloneLedger.Record | tools/python/devex_clone_ledger.py:382-398 | `intent`, `confirm`, `reconcile` and `resume` append exactly their event, exactly when the session is not finished and the append succeeds |
| LedgerObject.CloneLedger.Finish | tools/python/devex_clone_ledger.py:400-406 | `finish` succeeds exactly when this session is active, sound, not finished, and every step of a non-empty set is confirmed, reconciled in this session if it reconciles |
| LedgerObject.CloneLedger.LoadSettled | tools/python/devex_clone_ledger.py:307-311 | an existing journal is read exactly when it is readable, and a writing session may open exactly when its steps are settled |
| LedgerObject.CloneLedger.Begin | tools/python/devex_clone_ledger.py:305-312 | a new journal is created or the existing one loaded, and when that succeeds |
| LedgerObject.CloneLedger.OpenLocked | tools/python/devex_clone_ledger.py:294-319 | opening succeeds exactly when the journal begins and its `opened` event is appended, inside this object's own session; otherwise the lock is released again |
| LedgerObject.CloneLedger.Enter | tools/python/devex_clone_ledger.py:276-292 | entering succeeds exactly when no lock exists, the directory is there or is created, and opening succeeds; an existing lock is never taken over |
| LedgerObject.CloneLedger.RecordFault | tools/python/devex_clone_ledger.py:331-348 | a failure is recorded under the lock, which is taken again and released if it is already gone; without the lock the object is given up |
| LedgerObject.FaultKept | tools/python/devex_clone_ledger.py:331-348 | a failure is on record exactly when the lock is at hand, the journal is as remembered and nothing stops the append; otherwise the object is poisoned |
| LedgerObject.CloneLedger.AppendOwn | tools/python/devex_clone_ledger.py:250-274 | an append to this object's own session grows the journal by that event exactly when it can, and poisons the object otherwise |
| LedgerObject.CloneLedger.Publish | tools/python/devex_clone_ledger.py:408-416 | the receipt is written exactly when the lock is gone, the journal is the one just closed and there is no receipt yet |
| LedgerObject.CloneLedger.CloseSession | tools/python/devex_clone_ledger.py:357-364 | a session is closed as failed after an error, as publishing with the time if it is finished, and as partial otherwise |
| LedgerObject.CloneLedger.Exit | tools/python/devex_clone_ledger.py:355-380 | exactly when the call succeeds; which closing event is recorded for an error, a finished session and a pause; which failure is recorded when the release or the receipt fails; after an error only a reconciliation may open next |
| LedgerObject.FailedSeals | tools/python/devex_clone_ledger.py:117-120 | after a session closed as failed, and after a failure recorded since, no session but a reconciliation is accepted |
| LedgerObject.CloneLedger.Inspect | tools/python/devex_clone_ledger.py:425-448 | the status reported is the one the files justify |
| LedgerComplete.PublishingIsLast | tools/python/devex_clone_ledger.py:129-143 | while the outcome is `publishing` no later fault is on record |
| LedgerComplete.CompleteMeansExactlyOnce | tools/python/devex_clone_ledger.py:425-448 | in every run a directory reported complete has no lock, and every step changed its resource exactly once, which now shows the after image |
| LedgerComplete.TraceIsRun | tools/python/devex_clone_ledger.py:188-449 | what the methods of the object do is a run of the model |
| LedgerResume.ResumePiece | tools/python/devex_clone_resume.py:113-116 | a step waiting at its before image may be authorised again |
| LedgerResume.IntentAllowed | tools/python/devex_clone_ledger.py:153-163 | an unregistered step is accepted exactly when no registered one waits |
| LedgerResume.WorkAccepted | tools/python/devex_clone_resume.py:113-120 | the events of the remaining plan are accepted exactly when no unregistered step that writes comes before a waiting one |
| LedgerResume.ResumeCompletes | tools/python/devex_clone_resume.py:102-120 | from a settled, paused ledger without such a gap, resuming is accepted and ends with every planned step confirmed |
| LedgerResume.PlanDrivenInOrder | tools/python/devex_clone_transfer.py:284-310 | in a journal written by following the plan the registered steps form a prefix of the plan's writes |
| LedgerResume.InOrderHasNoGap | tools/python/devex_clone_resume.py:102-120 | steps registered in plan order leave no gap |
| LedgerResume.WorkIsPlanDriven | tools/python/devex_clone_resume.py:113-120 | working through the plan keeps the journal plan-driven, wherever it is cut off |
| LedgerResume.FirstCopyCompletes | tools/python/devex_clone_transfer.py:284-325 | the first copy of a plan is accepted to its end |
| LedgerResume.ReconcilePauses | tools/python/devex_clone_resume.py:89-99 | a reconcile session that classifies every registered step pauses the ledger with all steps settled |
| LedgerResume.RecordPair | tools/python/devex_clone_transfer.py:298-312 | one authorisation and its confirmation, both recorded exactly when the object is sound, both are acceptable and the write goes through; cut off anywhere otherwise |
| LedgerResume.HandleItem | tools/python/devex_clone_resume.py:113-119 | one planned step records its part of the events exactly when they are acceptable and the write goes through, and a prefix of it otherwise |
| LedgerResume.WorkThrough | tools/python/devex_clone_resume.py:113-119 | the loop over the plan records the plan's events exactly when they are acceptable and every write goes through, and a prefix of them otherwise |
| LedgerResume.ResumesToEnd | tools/python/devex_clone_resume.py:102-120 | from settled steps of a plan-driven journal all of the remaining plan is accepted and leaves every registered step confirmed |
| LedgerResume.ResumeSteps | tools/python/devex_clone_resume.py:102-120 | `resume_steps` records exactly the events of the remaining plan, or stops inside them, and keeps a plan-driven journal plan-driven; from settled steps a sound object goes through to `finish` exactly when every write does |
| LedgerReconcile.ReconcileBatch | tools/python/devex_clone_transfer.py:443-479 | a batch that does not fit is not classified at all; one that fits is recorded in plan order, exactly when its events are acceptable and written |
| LedgerReconcile.ReconcileSteps | tools/python/devex_clone_resume.py:89-99 | `reconcile_steps` records one reconciliation per registered step in plan order; it succeeds exactly when every registered step is planned, every observation fits, and the events are acceptable and written; a plan-driven journal stays plan-driven |
| LedgerReconcile.OrderHolds | tools/python/devex_clone_resume.py:89-99 | these are exactly the registered planned steps, each once |
| LedgerReconcile.CheckContinuation | tools/python/devex_clone_resume.py:123-132 | a continuation is refused exactly when the ledger is unreadable, a lock is left, or a resumption would not start from a paused and settled ledger |
| LedgerSittings.SittingIsPlanDriven | tools/python/devex_clone_resume.py:89-120 | a session of any mode, cut off anywhere and closed, failed or faulted, keeps the journal plan-driven |
| LedgerSittings.JournalsArePlanDriven | tools/python/devex_clone_resume.py:89-132 | after the creation of a ledger and any sequence of first copy, reconciliations and resumptions, each cut off anywhere, the journal is accepted and its intents follow the plan |
| LedgerSittings.ResumeCut | tools/python/devex_clone_resume.py:102-120 | a resumption of a paused and settled ledger that the tools produced is accepted wherever it is cut off |
| LedgerSittings.RecoveryCompletes | tools/python/devex_clone_resume.py:89-120 | from any journal the tools produced, whatever crashes left open, one reconciliation in which every resource shows its before or after image and one resumption end with every planned step confirmed |
| LedgerSittings.ReconcileThenResume | tools/python/devex_clone_resume.py:89-120 | what `reconcile_steps` records, closed as partial, is again a produced journal, and `resume_steps` carries it to completion |
| DepartmentEvidence.SortById | tools/python/devex_clone_department_model.py:302-307 | the directory image lists the observed records by ascending id |
| DepartmentEvidence.ByIdUnique | tools/python/devex_clone_department_model.py:302-307 | a directory sorted by distinct ids is determined by its records |
| DepartmentEvidence.BeforeIsExactly | tools/python/devex_clone_department_model.py:391-397 | an observation classifies as before exactly when it holds the planned records in any order, and the planned template paths |
| DepartmentEvidence.AfterIsExactly | tools/python/devex_clone_department_model.py:385-402 | it classifies as after exactly when it holds the planned records and one more, the planned department under an unused id, and the one more path |
| DepartmentEvidence.CheckAttempt | tools/python/devex_clone_department_model.py:450-482 | the body of the validator's loop accepts exactly the specified attempts |
| DepartmentEvidence.ActionHistory | tools/python/devex_clone_department_model.py:448-483 | the validator accepts exactly the specified chains |
| DepartmentEvidence.AcceptedChain | tools/python/devex_clone_department_model.py:448-483 | an accepted chain has one key, only its last attempt is confirmed, and every earlier intent was reconciled as before and never answered |
| DepartmentEvidence.AttemptExactly | tools/python/devex_clone_department_model.py:416-482 | an attempt is accepted exactly when its files are whole, belong to one write, and show the planned records before and exactly one more after |
| DepartmentEvidence.HistoryExactly | tools/python/devex_clone_department_model.py:448-483 | a chain is accepted exactly when every attempt is such evidence under one key and the last one is confirmed |
| DepartmentSafety.DoKeepsChain | tools/python/devex_clone_department.py:591-669 | every file effect, torn or whole, keeps the shape of the chain and what the process remembers of it |
| DepartmentSafety.NewKeyFits | tools/python/devex_clone_department.py:593-605 | the key of a new attempt repeats an earlier key exactly when every attempt in between had an intent |
| DepartmentSafety.AfterNames | tools/python/devex_clone_department_model.py:355-402 | an after image lists the department |
| DepartmentSafety.BeforeNamesNone | tools/python/devex_clone_department_model.py:355-402 | a before image does not |
| DepartmentSafety.NextKeeps | tools/python/devex_clone_department.py:578-669 | every effect, crash, late landing, lost request and foreign change keeps the invariant |
| DepartmentSafety.RunInvariant | tools/python/devex_clone_department.py:578-669 | the invariant holds at every point of every run |
| DepartmentChains.SameKeyIffLinked | tools/python/devex_clone_department.py:593-605 | in every run two intents carry one key exactly when no attempt between them lacks an intent |
| DepartmentChains.ConfirmedChainAccepted | tools/python/devex_clone_department_model.py:448-483 | a chain that any crash-interleaved run leaves confirmed is accepted exactly when no mismatch or torn proof is on record, abandoned before images are good, and no attempt after an intent lacks one |
| DepartmentChains.BetweenIntents | tools/python/devex_clone_department.py:578-588 | between two intents the earlier one was reconciled, only ever against exactly the planned directory, and had no response |
| DepartmentChains.BarredForGood | tools/python/devex_clone_department.py:578-669 | once a response, a mismatch, a torn proof or a torn intent is on record for the last intent, no later state has another attempt, intent or request |
| DepartmentChains.PromptCreatesOnce | tools/python/devex_clone_department.py:591-630 | requests that take effect while their caller waits, or never, create at most one department |
| DepartmentChains.OneKeyCreatesOnce | tools/python/devex_clone_department.py:591-630 | with one idempotency key on the chain, requests that land arbitrarily late create at most one department |
| DepartmentSecond.SecondIffTwoKeys | tools/python/devex_clone_department.py:591-630 | in every reachable state, landing requests alone can lead to two departments exactly when two distinct keys are under way or have created one |
| DepartmentSecond.SecondIffSeparated | tools/python/devex_clone_department.py:591-630 | the same on the attempt directories: two attempts with such keys, and between them one that died before its intent |
| DepartmentSecond.NewKeyExactly | tools/python/devex_clone_department.py:593-605 | a new attempt takes a key that no earlier intent has exactly when the attempt before it has no intent |
| DepartmentChains.AcceptedCreatedOnce | tools/python/devex_clone_department_model.py:448-520 | an accepted chain means that the department was created exactly once and is there |
| DepartmentLostKey.LostKeyCreatesTwice | tools/python/devex_clone_department.py:593-605 | a concrete run in which an abandoned attempt loses the key and a late request creates a second department |
| DepartmentObject.Tenant.Take | tools/python/devex_clone_department.py:591-669 | one effect, unless the process dies before or inside it |
| DepartmentObject.Tenant.PrepareWrite | tools/python/devex_clone_department.py:591-619 | the intent is written exactly when the last attempt releases a new one and the observed directory is the planned one; it reuses the key of an unresolved intent; the before image is kept either way |
| DepartmentObject.Tenant.WriteIntent | tools/python/devex_clone_department.py:605-619 | attempt directory, before image and intent are written in this order, and the intent exactly if the image is the planned one |
| DepartmentObject.Tenant.Deliver | tools/python/devex_clone_department.py:616-630 | a write is confirmed exactly when its response is good and the following image holds what it created; a response is kept whatever it says |
| DepartmentObject.Tenant.ApplyOne | tools/python/devex_clone_department.py:591-630 | `apply_one` writes one complete attempt, reports an older confirmation, or stops; what it saw, intended and was answered is on record as far as it lived; earlier attempts are untouched |
| DepartmentObject.Tenant.RecordState | tools/python/devex_clone_department.py:659-669 | without a response the observed state is recorded, a mismatch included, and confirmed exactly if it is after |
| DepartmentObject.Tenant.Settle | tools/python/devex_clone_department.py:645-669 | the result of each state and response, exactly, and what it leaves on record |
| DepartmentObject.Tenant.ReconcileOne | tools/python/devex_clone_department.py:633-669 | exactly when `reconcile_one` reports before, after or nothing; a good observation is always kept, and without a response its state is recorded, a mismatch included |
| DepartmentObject.TraceIsRun | tools/python/devex_clone_department.py:591-669 | what the two methods do is a run of the model, so the invariant holds at every crash point |
| IdentityLock.ProgressSurveyable | tools/python/devex_clone_post_process.py:292-332 | wherever a release stopped, its records stay workable exactly if the pending file is not torn |
| IdentityLock.ClaimedSurveyable | tools/python/devex_clone_post_process.py:359-369 | a claimed lock can be finished exactly when no older record carries its owner |
| IdentityLock.CrashThenRecover | tools/python/devex_clone_post_process.py:311-375 | after a crash anywhere in an unfinished release one more call leaves exactly one released marker for that tombstone and no pending file, torn pending excepted; later calls change nothing |
| IdentityLock.ClaimThenRecover | tools/python/devex_clone_post_process.py:346-400 | after the rename the next call finishes the release exactly when the owner was unused and the pending file is not torn |
| IdentityLock.ForeignClaimStays | tools/python/devex_clone_post_process.py:388-394 | a replacement that was claimed in the lock's place stays in its tombstone and blocks every later call |
| IdentityLock.IdentityRoot.Meddle | tools/python/devex_clone_post_process.py:335-336 | another process may remove or replace the lock |
| IdentityLock.IdentityRoot.Survey | tools/python/devex_clone_post_process.py:359-370 | the loop over the records accepts exactly when all are good, no owner repeats, and only the own release is unfinished; it finds that one |
| IdentityLock.IdentityRoot.Publish | tools/python/devex_clone_post_process.py:311-332 | pending write, link and unlink: progress at every crash point, one marker and no pending file at the end |
| IdentityLock.IdentityRoot.Finish | tools/python/devex_clone_post_process.py:371-375 | an interrupted release is completed, a complete one left alone |
| IdentityLock.IdentityRoot.Claim | tools/python/devex_clone_post_process.py:382-400 | whatever stands at the lock is renamed; only the file seen before is released |
| IdentityLock.RecoveredLeaves | tools/python/devex_clone_post_process.py:346-400 | an undisturbed call: bad records stop it; a release on record is completed; without one the lock of the dead process, and no other, goes to a new tombstone with its marker, everything else unchanged |
| IdentityLock.IdentityRoot.Recover | tools/python/devex_clone_post_process.py:346-400 | under any replacement every lock content stays at the lock or in a tombstone unless others remove it; undisturbed, the call leaves and returns exactly that |
| ProducerHistory.CheckHistory | tools/python/devex_clone_producer_lineage.py:133-225 | the loop of `_history` accepts exactly the specified logs, the log file of every intent included |
| ProducerHistory.ScanMeans | tools/python/devex_clone_producer_lineage.py:144-203 | the automaton's dictionaries say exactly which intents, starts and failures the log holds, and its two indexes agree |
| ProducerHistory.OneToken | tools/python/devex_clone_producer_lineage.py:169-181 | in an accepted log a creation identity belongs to exactly one token |
| ProducerHistory.EndedOnce | tools/python/devex_clone_producer_lineage.py:182-202 | in an accepted log a process ends at most once, be it by failure, rollback or stop |
| ProducerHistory.EventsInOrder | tools/python/devex_clone_producer_lineage.py:145-200 | accepted events are numbered from 0 in the order of time, intents name the log of their role and token, and processes run the executable of their role |
| ProducerRuntime.ScansOne | tools/python/devex_clone_producer_lineage.py:144-200 | an event that fits the state is taken unless it closes a process whose start was never recorded |
| ProducerRuntime.IntentSound | tools/python/devex_clone_runtime.py:100-107 | recording an intent keeps the site sound |
| ProducerRuntime.LoggedSound | tools/python/devex_clone_runtime.py:108-110 | creating the log file that an intent names keeps the site sound |
| ProducerRuntime.SpawnSound | tools/python/devex_clone_runtime.py:108-115 | starting a process under a fresh pair of pid and start time keeps the site sound |
| ProducerRuntime.RecordSound | tools/python/devex_clone_runtime.py:116 | writing the role receipt keeps the site sound |
| ProducerRuntime.StartedSound | tools/python/devex_clone_runtime.py:117 | recording `started` keeps the site sound and makes the process stoppable |
| ProducerRuntime.FailedSound | tools/python/devex_clone_runtime.py:129-139 | recording `start-failed` keeps the site sound once the process is gone |
| ProducerRuntime.EndSound | tools/python/devex_clone_runtime.py:152-168 | recording a rollback or a stop keeps the site sound once the process is gone |
| ProducerRuntime.RunningIsStoppable | tools/python/devex_clone_runtime.py:64-71 | a running process named by a role's receipt is one whose end the validator will take |
| ProducerRuntime.AnsweredIff | tools/python/devex_clone_producer_lineage.py:203-204 | the final test for open intents is that every intent has a start or a failure |
| ProducerRuntime.ScannedIsKnown | tools/python/devex_clone_producer_lineage.py:192-200 | a taken log closes only processes it started |
| ProducerRuntime.AcceptedExactly | tools/python/devex_clone_producer_lineage.py:133-225 | the history of any reachable site is accepted exactly when there is one, every intent was answered and got its log, no log outgrew the limit, and no process started without a record was ended or is named by a receipt |
| ProducerRuntime.NothingLostIsAccepted | tools/python/devex_clone_runtime.py:86-175 | when every receipt got its start and every intent its log of readable size, only a missing answer or an empty history makes the validator refuse |
| ProducerControl.Runtime.constructor | tools/python/devex_clone_runtime.py:86-92 | an empty runtime directory is sound |
| ProducerControl.Runtime.Wait | tools/python/devex_clone_runtime.py:118-128 | processes may exit by themselves and time does not run backwards |
| ProducerControl.Runtime.Append | tools/python/devex_clone_runtime.py:86-97 | the history is rewritten with one more event, or the call fails or dies before or after that; where writes do not fail it succeeds |
| ProducerControl.Runtime.Terminate | tools/python/devex_clone_runtime.py:129-137 | a termination that returns leaves the process gone |
| ProducerControl.Runtime.FailStart | tools/python/devex_clone_runtime.py:129-139 | the handler ends the child before it records the failure, keeps the site sound, and records it unless it fails itself |
| ProducerControl.Runtime.Intend | tools/python/devex_clone_runtime.py:100-107 | the intent is on record before anything is started |
| ProducerControl.Runtime.Launch | tools/python/devex_clone_runtime.py:108-116 | the log, the child and its receipt appear in this order, and each of them may be the last |
| ProducerControl.Runtime.Spawn | tools/python/devex_clone_runtime.py:111-115 | the child gets any pair of pid and start time that no process had before |
| ProducerControl.Runtime.RecordProcess | tools/python/devex_clone_runtime.py:116 | the receipt names the process, or the call fails before or after that |
| ProducerControl.Runtime.Announce | tools/python/devex_clone_runtime.py:117 | the `started` event follows the receipt |
| ProducerControl.Runtime.Follow | tools/python/devex_clone_runtime.py:117-139 | after the receipt: the start on record, and a failure if the process does not become ready; at each step what is answered and what is lost |
| ProducerControl.Runtime.Continue | tools/python/devex_clone_runtime.py:107-139 | everything after the intent: which of log, child, receipt, start and failure were reached, in this order, and what they leave unanswered, unlogged or lost |
| ProducerControl.Runtime.StartOne | tools/python/devex_clone_runtime.py:100-139 | exactly the events of its report are added, and the report says what was left unanswered, unlogged or lost; while the history can be written the result is success or a recorded failure whose process is gone, and success if all else works too |
| ProducerControl.Runtime.EndOne | tools/python/devex_clone_runtime.py:152-168 | one process is ended and then recorded, and always so while that does not fail; no start becomes unanswered, unlogged or lost |
| ProducerControl.Runtime.StartAll | tools/python/devex_clone_runtime.py:142-151 | the roles are started in order until one fails, with one report each; all of them where nothing fails |
| ProducerControl.Runtime.Start | tools/python/devex_clone_runtime.py:142-156 | a running role refuses the start without effect; success adds one intent and one start per role in order; a failed role rolls back those started before it, the last first, all of them while that does not fail; the reports say what is left unanswered, unlogged or lost |
| ProducerControl.Runtime.EndAll | tools/python/devex_clone_runtime.py:152-168 | the processes are ended last first, each recorded once, all of them while that does not fail; no start becomes unanswered, unlogged or lost |
| ProducerControl.Runtime.Identities | tools/python/devex_clone_runtime.py:160-161 | exactly the running processes of the roles, read before any is ended |
| ProducerControl.Runtime.Stop | tools/python/devex_clone_runtime.py:159-175 | a stop ends and records the running processes of the roles, last first, all of them if it succeeds or nothing fails; it makes no start unanswered, unlogged or lost |
| ProducerControl.Runtime.Operate | tools/python/devex_clone_runtime.py:86-175 | any sequence of starts and stops, whatever fails or dies in them, leaves exactly what the reports of its starts say |
| ProducerControl.OperateNew | tools/python/devex_clone_producer_lineage.py:133-225 | for every sequence of controls over a new directory: the exact condition under which the history is accepted, in terms of the reports; without a start cut between receipt and record it is that every intent was answered, and where nothing fails there is no condition left |
| ProducerWitness.LogMissingRefused | tools/python/devex_clone_producer_lineage.py:170 | a run whose log file could not be created: every intent is answered, nothing was started, and the history is refused |
| ProducerWitness.NotRecordedRefused | tools/python/devex_clone_runtime.py:116-139 | a run whose start could not be recorded after its receipt was written: answered, logged, and refused |
| ProducerWitness.StoppedLaterRefused | tools/python/devex_clone_runtime.py:116-175 | a run in which the controller died there and a later stop ended the process: the history closes a process it never started |
| ProcessTree.ClosedHoldsDescendants | tools/python/ci_devex_cgroup.py:152-171 | the descendants are the least set that holds the registered processes and is closed under live parent links |
| ProcessTree.Registry.Pass | tools/python/ci_devex_cgroup.py:159-168 | one round registers only descendants, and a round without change leaves none that is ready |
| ProcessTree.Registry.RegisterChildren | tools/python/ci_devex_cgroup.py:152-171 | for every dictionary order the registry becomes exactly the old one with the current facts of all descendants; it raises exactly when a live process is of another user or its pid is registered with another creation time or user, changing nothing |
| ProcessTree.AllFound | tools/python/ci_devex_cgroup.py:169-171 | stopping when nothing changes misses no descendant |
| ProcessTree.RegisteredExactly | tools/python/ci_devex_cgroup.py:152-171 | a live pid is registered exactly when live parent links lead to one registered before; entries of dead pids are unchanged |
| ProcessTree.RegisteredAgain | tools/python/ci_devex_cgroup.py:213-216 | observing the same processes again changes nothing |
| ProcessTree.Registry.MayKill | tools/python/ci_devex_cgroup.py:268-278 | cleanup reaches its kill exactly when every live process is the runner's and descends from a registered one |
| SqlLiterals.Quoted | tools/python/devex_clone_rows.py:109-124 | the index loop computes the specified content and end of a quoted string, or raises where it does |
| SqlLiterals.ParseLiterals | tools/python/devex_clone_rows.py:127-155 | the index loop of `literals` terminates and computes the specified values |
| SqlGrammar.RowRead | tools/python/devex_clone_rows.py:127-155 | however a row is written, with any escapes, spacing and `_binary`, it is read back as its values |
| SqlGrammar.RowWritten | tools/python/devex_clone_rows.py:127-155 | whatever is accepted is a row of the grammar that means the values returned |
| SqlGrammar.LiteralsExactly | tools/python/devex_clone_rows.py:127-155 | the parser accepts exactly the rows of the grammar, each with one meaning |
| SqlGrammar.OtherEscapes | tools/python/devex_clone_rows.py:109-124 | an escaped `%` or `_` keeps its backslash, and a backslash before a letter without a meaning is refused |
| SqlGrammar.PrintedStrings | tools/python/devex_clone_rows.py:109-155 | strings printed with escaped control characters, quotes and backslashes and joined by commas come back whole |
| MigrationLock.LockedIdentity | tools/python/check_migration_history.py:85-115 | storage and target of a clean entry are those its path implies |
| MigrationLock.ParseLock | tools/python/check_migration_history.py:118-175 | a lock is clean exactly when every entry is sound and no path repeats |
| MigrationLock.VerifyLock | tools/python/check_migration_history.py:178-190 | every frozen file is there with its digest, or the check fails |
| MigrationLock.VerifyBootstrap | tools/python/check_migration_history.py:402-438 | without an older lock only baselines are committed and all are frozen as they are |
| MigrationLock.VerifyTrusted | tools/python/check_migration_history.py:441-494 | the new lock starts with the trusted one, whose files are as frozen, and only uncommitted migrations with new targets follow |
| MigrationLock.Check | tools/python/check_migration_history.py:631-656 | the check passes exactly when the lock is clean, every frozen file is as frozen, the other checks pass and, in the stable stage, the lock follows the commit |
| MigrationLock.FrozenForever | tools/python/check_migration_history.py:441-494 | in a chain of accepted stable commits every lock starts with every earlier one and `frozen_at` never changes |
| MigrationLock.FrozenFileStays | tools/python/check_migration_history.py:178-190 | a file once frozen keeps path, storage, target, digest and bytes in every later commit |
| MigrationPaths.DirectoryNames | tools/python/check_migration_history.py:23-26 | the four directories, spelled out |
| MigrationPaths.IdentityExactly | tools/python/check_migration_history.py:85-115 | storage and target of a path are exactly what its directory and the names after it say: `control` or `tenant-data`, and the name of the file or first directory or `resource:<name>:initial` |
| MigrationPaths.EntryBelongs | tools/python/check_migration_history.py:143-164 | every entry of a clean lock names the storage and target that its path spells |
| MigrationPaths.AcceptedExactly | tools/python/check_migration_history.py:143-164 | a path is accepted with a storage and a target exactly when it spells them |
| MigrationFreeze.SafeAgain | tools/python/check_migration_history.py:63-115 | the relative path of an entry is its own normal form, with the same identity |
| MigrationFreeze.ReadsBack | tools/python/check_migration_history.py:659-676 | text written between quotes without escaping is read back as itself exactly when it holds no quote, no backslash and no control character other than a tab |
| MigrationFreeze.RenderedLocks | tools/python/check_migration_history.py:659-676 | the text `render_lock` writes is loaded as its entries exactly when every path can stand between quotes as it is and `frozen_at` is readable there |
| MigrationFreeze.AdditionsDistinct | tools/python/check_migration_history.py:740-770 | what a freeze collects is distinct and not locked yet |
| MigrationFreeze.FreezeOne | tools/python/check_migration_history.py:741-757 | the new files of one migration, refused if it is a skeleton or already committed |
| MigrationFreeze.Collect | tools/python/check_migration_history.py:740-770 | both loops collect exactly the new files, or report an error |
| MigrationFreeze.Freeze | tools/python/check_migration_history.py:718-786 | `freeze` succeeds exactly when the old lock passes and everything new may be frozen, and then the lock is what its text reads as; otherwise the lock is unchanged |
| MigrationFreeze.FreezeAppends | tools/python/check_migration_history.py:777-781 | a successful freeze only appends, distinct files that were neither locked nor committed, with the digests they have |
| MigrationFreeze.FreezeThenCheck | tools/python/check_migration_history.py:484-493 | the lock it writes passes the stable check as the entries it means exactly when `frozen_at` and all paths can stand between quotes as they are and no new file reuses a target frozen in the commit |
| MigrationFreeze.FreezeThenBootstrap | tools/python/check_migration_history.py:402-438 | the same where the commit has no lock: accepted exactly when the paths can stand between quotes as they are and `frozen_at` is readable |
| MigrationFreeze.EscapeRefused | tools/python/check_migration_history.py:659-676 | with a backslash in `frozen_at` everything can still be frozen, and the lock that is written reads differently and is refused |
| Placement.GatherMeans | tools/python/devex_clone_model.py:242-275 | the scan succeeds exactly when every row is fit and no placement, fence or slot repeats, and its dictionaries hold exactly what the rows say |
| Placement.ValidateRelations | tools/python/devex_clone_model.py:278-293 | the checks of placements, fences and slots accept exactly the specified states |
| Placement.RelatedIsSeated | tools/python/devex_clone_model.py:278-293 | the checks on dictionaries mean the same about the rows themselves |
| Placement.Collected.Collect | tools/python/devex_clone_model.py:246-261 | one row is taken exactly when it is fit and new |
| Placement.Collected.CollectDump | tools/python/devex_clone_model.py:332-344 | the rows of one dump continue the scan |
| Placement.DatabasePlan | tools/python/devex_clone_model.py:317-351 | as far as placements go, the plan is accepted exactly when there is one dump per database, the rows are clean and everything is seated |
| Placement.RowsFit | tools/python/devex_clone_model.py:246-261 | every placement and fence of an accepted plan is active with a generation and a token, every fence names its own database, every slot row is the fixed one |
| Placement.RowRefused | tools/python/devex_clone_model.py:246-261 | by itself a row is refused exactly when it is inactive, lacks a generation or token, or stands in the wrong place |
| Placement.TenantSeatedOnce | tools/python/devex_clone_model.py:278-282 | every tenant has exactly one placement row and one fence row, equal, the fence in the database the placement names |
| Placement.ResidentAlone | tools/python/devex_clone_model.py:285-292 | a dedicated database has at most one resident, which its slot names; a shared one has an empty slot |
| Placement.SlotOnce | tools/python/devex_clone_model.py:283-292 | every database has exactly one slot row; it names the resident of a dedicated database, and is empty for a shared one and for a dedicated one without a resident |
| StreamSearch.WindowSuffices | tools/python/check_deployment_assets.py:278-282 | the kept bytes and the new chunk have a match exactly when all the data has, if there was none before |
| StreamSearch.StreamContains | tools/python/check_deployment_assets.py:276-283 | the loop reports exactly whether some prefix of the stream that ends with a chunk matches |
| StreamSearch.FoundMeans | tools/python/check_deployment_assets.py:33 | what a search finds, byte by byte: the literal, the path of the generator, or its permission not followed by a lower-case letter |
| StreamSearch.LiteralFoundExactly | tools/python/check_deployment_assets.py:276-283 | a literal of at most 129 bytes is found exactly when the stream holds it, however it is cut |
| StreamSearch.OnlineFoundExactly | tools/python/check_deployment_assets.py:33 | the generator pattern misses nothing; it also reports a permission that a chunk end cuts off from a lower-case letter |

## Left out

Assumptions, on which the results rest:

- SHA-256 is an injective constructor, and a file binding is the file itself. JSON, TOML and regex libraries are replaced by datatypes.
- Ledger observations are truthful, a session's write does not take effect after that session ended, and each authorisation is used for at most one write.
- A complete department observation lists the tenant's directory; only requests of this plan create a department of the planned name, nobody removes it, and the product creates nothing for a key that already created one and gives each new department an id of its own.
- UUIDs are new when they are drawn, a kernel never reuses a pair of pid and start time, and the controller's clock does not run backwards.
- Nobody but the sessions of the ledger changes a resource that a plan guards; without this `LedgerSafety.PhasesAreTrue` and `LedgerComplete.CompleteMeansExactlyOnce` say what was done, not how the resource looks now.
- One controller at a time works on a ledger, a tenant, an identity root or a runtime directory; the process guards that ensure this are not part of this model.

Not modelled:

- LedgerFiles.Read: the size limit of a journal is a flag of the append, and a torn line is a flag of the file, because bytes are not modelled.
- LedgerObject.CloneLedger.Enter: the copy owner, an outer lock by another module, is left out.
- LedgerResume.ResumeSteps: the read-only checks of confirmed and unchanged resources before and after the writes only ever stop the run earlier.
- LedgerReconcile.ReconcileBatch: the re-reading of artifacts and of the ledger around one observation is left out.
- DepartmentEvidence.AfterIsExactly: principals, workbooks, detail views and API envelopes are one validity flag of the observation.
- DepartmentObject.Tenant.ApplyOne: the guards between two effects appear only as points where the process may stop.
- IdentityLock.IdentityRoot.Recover: links, device numbers and the reading limit of the lock file are left out; an absent release directory is an empty one.
- ProducerHistory.CheckHistory: artifact digests, ready URLs and error types are assumed to be as the writer leaves them; a log file is there or not, and readable or too large.
- ProducerControl.Runtime.Stop: ports and readiness only decide whether the call fails at its end.
- SqlLiterals.ParseLiterals: numbers and hexadecimal digits stay text; `parse_row` and its JSON columns are left out. White space and decimal digits are those of any Unicode version.
- MigrationLock.LockIdentity: the digits of a migration name are ASCII digits.
- MigrationLock.Check: registry wiring, `verify_append_only` and the release stage are parameters; a repository without Git is left out.
- MigrationFreeze.FreezeThenBootstrap: a `frozen_at` with a quote in it is excluded, because text after a quote that closes the value early may be a comment or further TOML, which is not followed; such text counts as unreadable.
- MigrationFreeze.Freeze: the directory walk of `discover` is a parameter that lists each source once; the atomic replacement of the lock file is left out.
- Placement.DatabasePlan: row counts, declared tenants, physical names in rows and schedules are left out.
- Placement.ValidateRelations: jobs, schedules and object manifests are left out.
- StreamSearch.StreamContains: needles longer than 129 bytes are left out, since the overlap does not reach across them.

Left out altogether: Windows handle protection, process identity system calls, policy linters, quota, cache and schedule
actions, adoption of failed department plans, restore modules, command lines and private protocols. They follow patterns
already covered or consist of field checks.

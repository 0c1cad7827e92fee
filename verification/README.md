# Faasten, modelled and verified

Faasten is a serverless platform with decentralized information flow control. Its trusted core is a
labelled object store that many worker threads share, a floating label for each run of a function, a
scheduler, and a small virtual machine allocator on every worker machine. This project models that
core in Dafny and proves what it promises, over every interleaving of its threads.

## How it is built

* `labels.dfy` is the label algebra. The `labeled` crate is not part of this repository, so its
  operations are given concretely, from the shape in which the repository exchanges labels: a
  component is false or a set of clauses, a clause is a set of principals, a principal is a sequence of
  tokens that acts for all its extensions. An empty clause is treated as false. Formulas are not kept
  reduced, so labels are compared by what they may flow to, not by their representation.
* `objects.dfy` and `protocol.dfy` are the store as a concurrent protocol. The only atomic operations
  are get, put, add and compare-and-swap. A turn of a thread performs at most one of them together
  with the private code that follows, and `Run` plays an arbitrary schedule of turns of any number of
  threads. A statement about `Run` for every schedule is a statement about every interleaving.
* `answers.dfy` and `resolved.dfy` say what each operation answers and leaves behind, in terms of what was
  asked for and of the store at the answering turn, whatever happens in between.
* `typing.dfy`, `linearizability.dfy`, `facets.dfy`, `progress.dfy`, `exposure.dfy`, `floating.dfy`,
  `accountability.dfy`, `delegation.dfy`, `granting.dfy`, `noninterference.dfy`, `gates.dfy` and
  `resolving.dfy` state and prove what holds of all runs; `gateloops.dfy` and `facetleaks.dfy` give runs
  that show what does not.
* `server.dfy` is the system call server as the object it is, with its fields updated in place and its
  loops. It carries the list of interferences that the other threads commit between its turns, and
  every method is proved to perform exactly the turns of its operation. `RunsArePlays` closes the
  circle: a thread of a protocol run is such a server. `paths.dfy` is path traversal in the same style.
* `placement.dfy` gives the scheduler's operations as functions on a state, `manager.dfy` performs them
  in place, `capacity.dfy` says what its view is good for, and `dispatch.dfy` is the scheduler process:
  a thread for each connection and the scheduling thread, again over every interleaving.
* `allocator.dfy`, `localmanager.dfy`, `machine.dfy` and `worker.dfy` are a worker machine: the
  allocator on values, in place, and under any number of workers, and the retry loop around a task.
  `agreement.dfy` joins it with the scheduler's view. `sums.dfy` and `wrappers.dfy` are helpers.

## What came out

Some properties hold only under a condition, which is then proved to be exact:

* Following redirect gates ends exactly when no gate repeats on the chain. Creating gates never makes a
  loop; re-pointing one does exactly when the new target reaches it (`RepointingIsSafeIff`), and a run
  without any privilege can do so (`GatesCanLoop`). Over whole runs, all chains end at every moment
  exactly when no turn closes a loop (`RunsTerminateIff`), and then a resolution reads at most all gates
  once for itself and once for each re-pointing under way (`ResolutionIsBounded`).
* The scheduler can overlook an idle worker (`StaleReportsHideWorkers`). It does not as long as no clean
  node promises more cached machines than it has idle workers, which all calls keep except reports. A
  report keeps it exactly when the machines it mentions, with those the view keeps at the node for
  functions it is silent about, are covered by the workers idle there (`UpdateConservesIff`); a machine
  that mentions all its functions is silent about none (`FullReportConservesIff`).
* A facet list carries no label. A run whose label may not flow to a facet can still make it appear, and
  a run at the facet's label sees it (`FacetListsTell`); a listing shows no facet that may not flow to
  the lister's label afterwards (`ListingShows`).
* Eviction asks the cache for the whole request and ignores what is free, so it can go round for ever
  although free and cached memory together suffice (`EvictionCanHang`); `ReservationHangsIff` says
  exactly when. The comment at snapfaas/src/resource_manager.rs:197-198 promises that it only returns
  false for requests above all memory, which is so, but not that it returns.
* A reply can be lost, because the wait list is filled after the task is queued (`ReplyCanBeLost`); at
  most one reply, to the right connection, is what holds (`RepliesFollowLife`).
* All virtual machines are public, and public data may not flow to a label that claims integrity, so a
  cached machine is never used for a task whose label claims any (`CachedIsUsedIff`).
* A worker whose first launches fail five times no longer gives up, and the return code for a failed
  launch is never sent (`Process`).
* `link` reports success to the system call's caller also when the name was taken, and `declassify`
  only computes a label. Resolving a gate accumulates declassification over redirects and drops the
  direct gate's own. Updating a gate checks its privilege but not its declassification, which is
  harmless because no update changes it (`GatesKeepTheirShape`). A path that starts with a facet
  resolves to the root. The model follows the code in all of these.

## Model

| member | source | states |
|---|---|---|
| Labels.ImpliesIsEntailment | README.md:57-63 | the syntactic implication test between components is exactly logical entailment over all worlds closed under delegation |
| Labels.ImpliesIsSound | snapfaas/src/syscalls.rs:3-22 | in every world closed under delegation, what implies a true component is never false |
| Labels.Refuting | README.md:57-63 | every clause has a delegation-closed world that falsifies it: the one of all principals that act for none of its own |
| Labels.SatAnd | README.md:57-63 | conjunction of components means conjunction in every world |
| Labels.SatOr | README.md:57-63 | disjunction, multiplied out clause by clause, means disjunction in every world |
| Labels.ImpliesAnd | README.md:57-63 | a conjunction is implied exactly when both parts are |
| Labels.OrImplies | README.md:57-63 | a disjunction under a privilege implies a component exactly when both parts do |
| Labels.FlowWeaken | snapfaas/src/fs/mod.rs:149-160 | a flow allowed under a privilege stays allowed under any stronger one |
| Labels.FlowTrans | snapfaas/src/fs/mod.rs:149-176 | flows compose, and the privileges spent on the way are conjoined |
| Labels.FlowTransSame | snapfaas/src/fs/mod.rs:149-176 | two flows under one privilege compose under it |
| Labels.LubIsLeast | snapfaas/src/fs/mod.rs:139-147 | a join may flow somewhere, under any privilege, exactly when both labels may |
| Labels.LubIsUpper | snapfaas/src/fs/mod.rs:139-147 | both labels may flow to their join |
| Labels.DowngradeFlows | snapfaas/src/fs/utils.rs:147-154 | a label may flow to its downgrade under the privilege that lowered it, so downgrading never releases more than the privilege speaks for |
| Labels.DowngradeIsLeast | snapfaas/src/fs/utils.rs:147-154 | the downgrade is the least label reached under the privilege: it may flow exactly where the label may flow with that privilege, so it releases all that the privilege speaks for |
| Labels.DelegationGoesDown | README.md:57-63 | one principal implies another exactly when it is the same or a prefix of it |
| Labels.EquivalentLabels | README.md:57-63 | labels that flow to each other are indistinguishable to every check |
| Objects.FindFacetIsFirst | snapfaas/src/fs/mod.rs:259-264 | the search answers the first entry of the facet, and nothing exactly when there is none |
| Objects.WriteKeepsTyped | snapfaas/src/fs/mod.rs:103-108 | a write that keeps label and kind, and whose references are good, keeps every reference in the store good |
| Protocol.FreshStoreIsTyped | snapfaas/src/fs/mod.rs:445-455 | the store that `initialize` leaves is a legal starting point |
| StoreTyping.StepTyped | snapfaas/src/fs/mod.rs:88-125 | every turn of every thread keeps store typing, and cells only change contents, fill a reservation or extend a facet list |
| StoreTyping.RunTyped | snapfaas/src/fs/mod.rs:88-125 | so does every run, under any schedule |
| StoreTyping.BeginOpTyped | snapfaas/src/syscall_server.rs:136-496 | every first turn of a system call leaves references good |
| StoreTyping.ContinueOpTyped | snapfaas/src/fs/mod.rs:199-278 | every later turn (compare-and-swap, reservation, put, next gate) leaves references good, and fills only its own reservation |
| StoreTyping.AppendedTyped | snapfaas/src/fs/mod.rs:265-273 | a facet appended after an unsuccessful search keeps the list free of duplicates, and its directory carries the facet as its label |
| StoreTyping.NoThreadPanics | snapfaas/src/fs/mod.rs:179-201 | no `get(..).unwrap()` on a reference can fail in any reachable state |
| StoreTyping.HeldReferencesAreGood | snapfaas/src/syscall_server.rs:136-193 | every reference in a directory, a facet list, a gate, a descriptor table or any operation under way points to a filled cell of its kind |
| StoreTyping.EditNeverSeesNone | snapfaas/src/fs/mod.rs:209-213 | the cell that `link` and `unlink` compare always decodes as a directory, so the branch that takes `Err(None)` for success is never taken |
| StoreTyping.CellsOnlyEvolve | snapfaas/src/fs/mod.rs:139-176 | between any two moments of a run no cell disappears, none changes its label or kind, and no gate its declassification |
| StoreTyping.EachUidAllocatedOnce | snapfaas/src/fs/mod.rs:89-101 | no uid is reserved by two turns of a run |
| Answers.AnswersAreRight | snapfaas/src/syscall_server.rs:947-1091 | under every interleaving, every answer is the right one for the operation as it was asked for: what is refused, what fails and what succeeds, with which descriptor, and exactly which cell is written with which contents, for each of the 19 operations |
| Answers.RunPursues | snapfaas/src/syscall_server.rs:947-1091 | whatever a thread is in the middle of, after any failed attempts, is still the edit, object or gate that it was asked for |
| Answers.EditsAreRequested | snapfaas/src/fs/mod.rs:199-233 | the edit that answers a link or an unlink, retries included, is of the directory and the name asked for, with the entry of the target descriptor |
| Answers.ServicesNeedClearance | snapfaas/src/syscall_server.rs:745-751 | a service is called exactly when the run's privilege implies the clearance that the service then has |
| Answers.LabelAfterService | snapfaas/src/syscall_server.rs:745-780 | after a call the label is the least that the service's label and the old one, lowered by the service's privilege, and the taint may flow to |
| Answers.ReadsAnswerWhatIsStored | snapfaas/src/fs/mod.rs:238-241 | a read answers the object that the descriptor's cell then holds, of whatever kind |
| Answers.CreatedIsStored | snapfaas/src/fs/mod.rs:585-671 | a creation that answered a descriptor has left under it the object asked for: label, kind, and each field of the gate or service, the redirect's target, the blob's name, or nothing at all |
| Answers.UpdateIsStored | snapfaas/src/syscall_server.rs:332-343 | an update that answered success has left exactly the contents given, under the label that was there |
| Answers.GateUpdateIsStored | snapfaas/src/syscall_server.rs:345-449 | an updated gate has what was given, and the rest as it was read when the update began |
| Answers.WrittenIsRead | snapfaas/src/fs/mod.rs:238-247 | what an update stored is what every run reads from that cell, through any descriptor, until the cell is written again |
| Answers.VisibleIsAllBelow | snapfaas/src/fs/mod.rs:287-293 | a listing keeps exactly the facets that may flow to the clearance |
| ResolutionAnswers.ResolvedIsTheChain | snapfaas/src/fs/mod.rs:346-371 | whatever other threads write meanwhile, a resolution answers the exact conjunction of what the gates it read delegated when it read them, along a chain from the gate asked for to the direct gate whose code it answers, all of whose clearances the run meets |
| ResolutionAnswers.RunLeads | snapfaas/src/fs/mod.rs:346-371 | a resolution under way is on such a chain and has collected exactly its gates |
| Linearizability.StepAgrees | snapfaas/src/fs/mod.rs:199-233 | each turn does to the directories exactly what its answer says, at that instant |
| Linearizability.EditsAreLinearizable | snapfaas/src/fs/mod.rs:199-233 | under every schedule the directories are what a sequential replay of the answers, in the order of the answering turns, gives; a false answer is true of the state at its own turn |
| Linearizability.InsertNeverOverwrites | snapfaas/src/fs/mod.rs:199-215 | a successful link inserts a name that was absent at that instant and changes nothing else |
| Linearizability.DirectoryChangesAreAnswered | snapfaas/src/fs/mod.rs:199-233 | a directory changes only at a turn that answers success for an edit of it |
| FacetAgreement.OpensAgree | snapfaas/src/fs/mod.rs:257-278 | if one open of a facet answers a directory, every later open of it by any thread answers the same one |
| FacetAgreement.FacetListsAreSound | snapfaas/src/fs/mod.rs:257-278 | in every reachable state a facet is listed once and its directory carries the facet as its label |
| FacetAgreement.OpenedIsFound | snapfaas/src/fs/mod.rs:259-276 | the directory an open answers is the one the list then holds for the facet |
| FacetAgreement.FindFacetInLonger | snapfaas/src/fs/mod.rs:270-274 | appending to a facet list does not change what an earlier facet finds |
| FacetAgreement.RunPrivate | snapfaas/src/fs/mod.rs:265-273 | a directory being made for a facet is referred to by nobody but its maker |
| FacetAgreement.LosersStayHidden | snapfaas/src/fs/mod.rs:273-276 | a directory whose append lost the race is never referred to again, by anyone, for the rest of the run |
| Progress.OwnTurn | snapfaas/src/fs/mod.rs:201-213 | an attempt repeats only over a value that has changed since the last read, and then reads the cell anew |
| Progress.AttemptsArePaidFor | snapfaas/src/fs/mod.rs:199-278 | each failed attempt of an operation is matched by a change of the same cell by another thread |
| Progress.LockFree | snapfaas/src/fs/mod.rs:199-278 | an operation makes at most one attempt more than there were interfering changes, and its next attempt succeeds if there were none |
| Progress.OperationsStartFresh | snapfaas/src/fs/mod.rs:199-201 | a retry loop starts with the value the cell has |
| Exposure.TurnsDependOnReads | snapfaas/src/fs/mod.rs:139-147 | a turn depends on nothing in the store but the cells it reads, and the labels of those it checks |
| Exposure.WritesNeedFlow | snapfaas/src/fs/mod.rs:149-176 | whoever overwrites a labelled cell has, at that moment, a current label that may flow to it with its privilege |
| Exposure.RunChecked | snapfaas/src/fs/mod.rs:149-176 | the check that an operation passed before a pause still stands when it writes |
| Exposure.LabelsOnlyRise | snapfaas/src/fs/mod.rs:139-147 | outside service calls and the final response, what the current label may flow to only shrinks |
| Exposure.PrivilegeIsFixed | snapfaas/src/fs/utils.rs:141-145 | a run keeps its privilege and does nothing after its response |
| Exposure.StaysConfined | snapfaas/src/syscall_server.rs:331-496 | once the current label may not flow to a label, it never may again unless the run calls a service |
| Exposure.WholeRunConfinement | snapfaas/src/syscall_server.rs:331-496 | from then on no turn of the run changes a cell of that label, whatever the other threads do |
| FloatingLabel.RaiseTracks | snapfaas/src/fs/mod.rs:139-147 | a read keeps the current label between the join of the exposures and that join lowered by the privileges spent |
| FloatingLabel.DowngradeTracks | snapfaas/src/fs/utils.rs:147-154 | so does a downgrade, once its privilege is counted as spent |
| FloatingLabel.DowngradeLowers | snapfaas/src/fs/utils.rs:147-154 | a downgraded label may flow back to the original without any privilege |
| FloatingLabel.RunMetered | snapfaas/src/syscall_server.rs:947-1091 | so it is in every reachable state, for every thread |
| FloatingLabel.LabelIsTheJoin | snapfaas/src/fs/utils.rs:126-133 | without service calls the current label is, to every check, the join of the start label, the labels read, the taints and the clearances: order, repetition and retries leave no trace |
| FloatingLabel.ExposuresDecide | snapfaas/src/fs/utils.rs:126-133 | two runs exposed to the same labels, in whatever order and how often, pass the same checks as readers and as writers |
| FloatingLabel.ServicesPayForLowering | snapfaas/src/syscall_server.rs:745-754 | with service calls that join may flow to the current label under the privileges of the services called, and the label still never exceeds the join |
| FloatingLabel.ResponsePaysOwnPrivilege | snapfaas/src/syscall_server.rs:955-962 | the response label costs the run its own privilege besides |
| Accountability.PeakIsAbove | snapfaas/src/fs/mod.rs:139-147 | the highest label a turn reaches is above everything it read or was told |
| Accountability.ActAccounted | snapfaas/src/fs/mod.rs:149-176 | one turn keeps the accounts of its thread and of the cell it writes |
| Accountability.FlowsAreAccountedFor | snapfaas/src/syscall_server.rs:682-791 | under every interleaving each source that reached a cell or a thread, through cells, invocations and responses, may flow to its label under the conjunction of the thread and service privileges exercised on the way |
| Accountability.PayloadIsAccounted | snapfaas/src/syscall_server.rs:701-713 | a run that another one invokes at its current label owes all that the invoker held |
| Accountability.ResponseIsAccounted | snapfaas/src/syscall_server.rs:715-724 | a run that takes a response owes all that the responding run held, its payment included |
| Accountability.EveryCellIsInTheLedger | snapfaas/src/fs/mod.rs:139-176 | no labelled cell is left out of the accounts, and each is a source of its own label |
| Delegation.RunBacked | snapfaas/src/fs/mod.rs:373-391 | in every reachable state a gate or service delegates no more than its last writer held, and a gate declassifies no more than its creator held |
| Delegation.RunChained | snapfaas/src/fs/mod.rs:346-371 | a resolution under way has collected no more than those answerable for the gates it read held |
| Delegation.NoAmplification | snapfaas/src/fs/mod.rs:346-371 | the privilege a resolution answers is implied by the conjunction of the privileges of the last writers of the gates on its chain |
| Delegation.DeclassificationIsBacked | snapfaas/src/fs/mod.rs:347-369 | the declassification a resolution answers is implied by the conjunction of the privileges of the creators of the redirects on its chain |
| Delegation.GatesKeepTheirShape | snapfaas/src/syscall_server.rs:345-449 | from its creation on a gate stays direct or redirect and keeps its declassification |
| Delegation.ServicesAreBacked | snapfaas/src/fs/mod.rs:312-324 | each service, and each single gate, is backed by the privilege of its own last writer |
| Granting.NothingFromNothing | snapfaas/src/syscall_server.rs:693-713 | when each invoked run gets a privilege that a resolution answered its invoker, every run, gate, service and answer of the system stays within the conjunction of the privileges granted from outside |
| Granting.TurnUnder | snapfaas/src/fs/mod.rs:373-391 | no turn of a thread takes the system beyond what was granted before it |
| Granting.DebtsAreGranted | snapfaas/src/syscall_server.rs:693-761 | all privileges that flows were let through with are implied by those granted from outside |
| Granting.GrantsBoundFlows | snapfaas/src/syscall_server.rs:693-761 | each source that reached a cell or a thread may flow to its label under the privileges granted from outside, whatever gates and services it went through |
| FacetLeaks.ListingShows | snapfaas/src/fs/mod.rs:280-294 | a listing shows exactly the facets of the list that may flow to the clearance, and they may flow to the lister's label afterwards |
| FacetLeaks.FacetListsTell | snapfaas/src/fs/mod.rs:257-278 | two runs of the system differ only in whether a run that may not flow to public opens a facet, and a public run's listing is answered differently |
| Noninterference.LowTurnsMatch | snapfaas/src/syscall_server.rs:947-1091 | while the label stays below the observer, a turn does the same in two stores that agree on what the observer may see |
| Noninterference.MovingTurns | snapfaas/src/fs/mod.rs:162-176 | a turn that takes the label away from the observer writes nothing, and takes it away in both runs |
| Noninterference.LockstepTurn | snapfaas/src/syscall_server.rs:947-1091 | two runs of one program in lockstep stay so, or depart together without having written |
| Noninterference.DepartedTurn | snapfaas/src/fs/mod.rs:149-176 | a run that has departed leaves every cell below the observer alone |
| Noninterference.TwoRuns | snapfaas/src/syscall_server.rs:947-1091 | two-run noninterference, for any privilege and any program that calls no service, including one that looks at its current label: equal answers, labels and visible cells until the label leaves the observer at some turn, and for ever after that agreement on every cell then visible |
| Server.SyscallProcessor.constructor | snapfaas/src/syscall_server.rs:66-86 | a run starts with its label joined to public, its privilege, and the root as descriptor 0 |
| Server.SyscallProcessor.EditDirectory | snapfaas/src/fs/mod.rs:199-233 | the retry loop of `link` and `unlink` performs exactly turns of the protocol and reports refusal, no change or success as its answer says |
| Server.SyscallProcessor.EditLoop | snapfaas/src/fs/mod.rs:201-214 | each pass considers the value read last, and there is at most one pass more than interferences by other threads |
| Server.SyscallProcessor.Propose | snapfaas/src/fs/mod.rs:162-176 | one pass over the directory value read last raises the label, checks the write and works out the change |
| Server.SyscallProcessor.Swap | snapfaas/src/fs/mod.rs:209-213 | one compare-and-swap installs the change or returns the value found |
| Server.SyscallProcessor.DentLink | snapfaas/src/syscall_server.rs:651-668 | performs exactly the turns of the link, with the entry of the target descriptor under the name given, and reports success also when the name was taken |
| Server.SyscallProcessor.DentUnlink | snapfaas/src/syscall_server.rs:670-680 | performs exactly the turns of the unlink, of the name given, and reports success exactly when an entry was removed |
| Server.SyscallProcessor.DentOpenName | snapfaas/src/syscall_server.rs:146-153 | opens exactly the entry listed under the name as a new descriptor, raising the label to the directory |
| Server.SyscallProcessor.DentOpenFacet | snapfaas/src/syscall_server.rs:154-163 | opens the directory agreed on for the facet |
| Server.SyscallProcessor.OpenFacetLoop | snapfaas/src/fs/mod.rs:257-278 | look, make, append and look again, as turns of the protocol |
| Server.SyscallProcessor.AppendFacet | snapfaas/src/fs/mod.rs:270-276 | one compare-and-swap on the facet list, also when the list did not decode |
| Server.SyscallProcessor.SetNewId | snapfaas/src/fs/mod.rs:89-97 | draws numbers until one is free and reserves it; still drawing exactly when they have run out |
| Server.SyscallProcessor.PutAndPublish | snapfaas/src/fs/mod.rs:98-101 | fills the reservation, and only then gives out a descriptor |
| Server.SyscallProcessor.Unlabel | snapfaas/src/fs/mod.rs:139-147 | answers what the cell held when it was read, and raises the label to it |
| Server.SyscallProcessor.DentRead | snapfaas/src/syscall_server.rs:498-511 | answers the bytes that the file held when it was read |
| Server.SyscallProcessor.DentList | snapfaas/src/syscall_server.rs:513-548 | answers the names and kinds that the directory held when it was read; anything but a directory lists as empty |
| Server.SyscallProcessor.DentLsGate | snapfaas/src/syscall_server.rs:575-649 | answers the gate as stored, raising the label to it |
| Server.SyscallProcessor.DentGetBlob | snapfaas/src/syscall_server.rs:793-800 | answers the name that the blob held when it was read, raising the label to it |
| Server.SyscallProcessor.DentListFaceted | snapfaas/src/syscall_server.rs:550-573 | raises the label to the clearance and answers the facets that may flow to it |
| Server.SyscallProcessor.DentClose | snapfaas/src/syscall_server.rs:195-201 | forgets the descriptor and nothing else |
| Server.SyscallProcessor.DentCreate | snapfaas/src/syscall_server.rs:203-213 | makes an empty directory, file or faceted directory of the label given and opens it as the one new descriptor |
| Server.SyscallProcessor.DentCreateBlob | snapfaas/src/fs/mod.rs:590-595 | makes an empty blob, writes the name into it only if the current label may flow to it, and publishes it only then |
| Server.SyscallProcessor.DentCreateChecked | snapfaas/src/fs/mod.rs:611-671 | makes a gate or service only if the label may be written and the privilege implies what is delegated; what is then stored has the label and every field as asked for |
| Server.SyscallProcessor.DentCreateDirectGate | snapfaas/src/syscall_server.rs:217-265 | reads the three image blobs, raising the label to each, and then creates the gate with the names they answered and the parts given, each in its place; nothing happens unless all three descriptors are blobs |
| Server.SyscallProcessor.DentUpdate | snapfaas/src/syscall_server.rs:338-343 | overwrites a file, service or blob with exactly the contents given after the delegation and the flow check, and refuses otherwise |
| Server.SyscallProcessor.Rewrite | snapfaas/src/fs/mod.rs:373-391 | the delegation check, the get and the flow check that stand before every overwrite |
| Server.SyscallProcessor.PutReplacement | snapfaas/src/fs/mod.rs:415-419 | the put, with which the operation ends |
| Server.SyscallProcessor.DentUpdateGate | snapfaas/src/syscall_server.rs:345-449 | reads the gate, raising the label, and performs exactly the turns of the update: kind, declassification and whatever is not given are those of the gate read |
| Server.SyscallProcessor.ReadForUpdate | snapfaas/src/syscall_server.rs:349-439 | works out the new gate from the one read, or answers that the update does not fit it |
| Server.SyscallProcessor.ResolveGate | snapfaas/src/fs/mod.rs:346-371 | follows redirects as turns of the protocol; still on its way exactly after the passes allowed |
| Server.SyscallProcessor.ResolveLoop | snapfaas/src/fs/mod.rs:347-370 | the loop starts from no authority at the gate given and takes one turn a gate |
| Server.SyscallProcessor.FollowGate | snapfaas/src/fs/mod.rs:351-369 | reads one gate, adds what it delegates, and goes on, answers or refuses |
| Server.SyscallProcessor.InvokeService | snapfaas/src/syscall_server.rs:745-780 | answers what came back exactly when the privilege meets the service's clearance; the label is then the least that the service's and the old one, lowered by the service's privilege, and its taint may flow to |
| Server.SyscallProcessor.TakeResponse | snapfaas/src/syscall_server.rs:715-724 | joins the label of the response of a synchronous invocation |
| Server.SyscallProcessor.GetCurrentLabel | snapfaas/src/syscall_server.rs:969-975 | answers the current label and changes nothing |
| Server.SyscallProcessor.TaintWithLabel | snapfaas/src/fs/utils.rs:126-133 | joins the label and answers the result |
| Server.SyscallProcessor.DeclassifyTo | snapfaas/src/fs/utils.rs:156-167 | offers the label exactly when the current one may flow there with the run's privilege, and installs nothing |
| Server.SyscallProcessor.Response | snapfaas/src/syscall_server.rs:955-962 | answers the least label that the current one may flow to with the run's privilege |
| Server.SyscallProcessor.DoSyscall | snapfaas/src/syscall_server.rs:947-1091 | each system call on labels or objects performs exactly the turns of its operation, a read only if the descriptor is of the kind it wants, and only a response ends the run |
| Server.SyscallProcessor.Dispatch | snapfaas/src/syscall_server.rs:947-1091 | the system calls other than the four reads perform exactly the turns of their operation |
| Server.RunsArePlays | snapfaas/src/fs/mod.rs:715-722 | each thread of a protocol run behaves as this server does when the other threads' turns interfere between its own |
| GateResolution.TerminatesIffAcyclic | snapfaas/src/fs/mod.rs:351-369 | the chain of a gate ends exactly when no gate repeats on it, and then within the number of gates |
| GateResolution.LoopIsFold | snapfaas/src/fs/mod.rs:346-371 | on a store at rest the loop taints with every gate of the chain and answers the recursive fold of privilege and clearance, and of declassification over redirects only, exactly when the clearance is met |
| GateResolution.ResolutionIsTheTotal | snapfaas/src/fs/mod.rs:346-371 | from scratch the loop answers exactly the total of the chain |
| GateResolution.LoopGoesOn | snapfaas/src/fs/mod.rs:351-369 | before the end of the chain the loop has no answer |
| GateResolution.ResolutionAnswersIffAcyclic | snapfaas/src/fs/mod.rs:341-371 | the loop answers exactly when the chain is acyclic; on a cyclic chain no number of passes answers |
| GateResolution.RepointingIsSafeIff | snapfaas/src/syscall_server.rs:414-441 | writing a redirect keeps all chains finite exactly when its target does not reach the gate written |
| GateResolution.CreationKeepsTermination | snapfaas/src/fs/mod.rs:632-651 | creating a gate always keeps all chains finite |
| GateResolution.DirectKeepsTermination | snapfaas/src/fs/mod.rs:353-362 | so does replacing a gate by a direct one |
| GateResolution.OnlyLoopsSpoilTermination | snapfaas/src/syscall_server.rs:414-441 | of all turns, exactly those that close a loop break it |
| GateResolution.RunsTerminateIff | snapfaas/src/syscall_server.rs:414-441 | every chain ends at every moment of a run exactly when no turn of the run closes a loop |
| ResolutionProgress.ResolutionIsBounded | snapfaas/src/fs/mod.rs:346-371 | while no turn closes a loop, a resolution during which some gate is re-pointed k times reads at most k + 1 times as many gates as there are, under every interleaving |
| ResolutionProgress.OthersTurn | snapfaas/src/fs/mod.rs:346-371 | a turn of another thread leaves the rest of a chain within its bound, and only a re-pointing costs anything |
| GateLoops.GatesCanLoop | snapfaas/src/syscall_server.rs:414-441 | from the store that `initialize` leaves, one run without privilege makes a redirect lead to itself, and a resolution of it is still under way after any number of turns |
| Paths.RaiseAllIsJoin | snapfaas/src/fs/mod.rs:466-470 | raising along a list of labels is their join |
| Paths.ResolveStable | snapfaas/src/fs/mod.rs:257-278 | making missing facets changes neither what a resolvable path resolves to nor the labels on its way |
| Paths.TraversalPreservesPaths | snapfaas/src/fs/mod.rs:471-496 | whatever else could be resolved before a path was traversed resolves to the same entry after it |
| Paths.NamesMakeNothing | snapfaas/src/fs/mod.rs:484-488 | traversing a path of names changes nothing |
| Paths.OneDirectoryPerFacet | snapfaas/src/fs/mod.rs:489-491 | a traversal makes at most one directory for each facet the path names |
| Paths.PrefixFails | snapfaas/src/fs/mod.rs:484-495 | a path fails with its first unresolvable prefix, having listed only that far |
| Paths.ComponentsAreOpens | snapfaas/src/fs/mod.rs:484-495 | a component leads exactly where the system call that opens it does |
| Paths.FileSystem.List | snapfaas/src/fs/mod.rs:195-197 | answers the entries and raises the label to the directory |
| Paths.FileSystem.Open | snapfaas/src/fs/mod.rs:257-278 | answers the facet's directory; if it was missing, exactly one empty directory is made and appended to the list, and otherwise nothing changes |
| Paths.FileSystem.Enter | snapfaas/src/fs/mod.rs:484-493 | one component lists a directory or opens a facet, whichever it asks for, and changes at most that facet |
| Paths.FileSystem.ReadPath | snapfaas/src/fs/mod.rs:471-496 | refines the recursive resolver: same entry, label raised by exactly the directories listed, nothing written but the missing facets that the path names, each in the list the path before it leads to; a path that starts with a facet answers the root |
| Paths.FileSystem.Walk | snapfaas/src/fs/mod.rs:484-495 | the loop from the second component on |
| Placement.AddIdleOk | snapfaas/src/sched/resource_manager.rs:72-82 | adding a worker keeps the index consistent |
| Placement.FindIdleOk | snapfaas/src/sched/resource_manager.rs:84-133 | so does choosing one: counts stay positive, lists stay non-empty, nodes stay known |
| Placement.UpdateOk | snapfaas/src/sched/resource_manager.rs:135-172 | so does a report, with or without zero counts |
| Placement.RemoveOk | snapfaas/src/sched/resource_manager.rs:174-196 | so does dropping a node, after `swap_remove` |
| Placement.StaleReportsHideWorkers | snapfaas/src/sched/resource_manager.rs:108-114 | a report that promises a cached machine where nobody is idle hides an idle worker elsewhere |
| Placement.PositiveDropsOne | snapfaas/src/sched/resource_manager.rs:100-104 | `retain` removes exactly the slot that fell to zero |
| Manager.ResourceManager.constructor | snapfaas/src/sched/resource_manager.rs:66-70 | starts with nothing known |
| Manager.ResourceManager.TryAddNode | snapfaas/src/sched/resource_manager.rs:205-211 | adds a clean node exactly when it is unknown |
| Manager.ResourceManager.AddIdle | snapfaas/src/sched/resource_manager.rs:72-82 | pushes the worker under its own address and keeps the index consistent |
| Manager.ResourceManager.FindClean | snapfaas/src/sched/resource_manager.rs:87-93 | finds the first slot of a clean node; no lookup on the way fails |
| Manager.ResourceManager.Retain | snapfaas/src/sched/resource_manager.rs:103-103 | drops exactly the empty slots |
| Manager.ResourceManager.PopWorker | snapfaas/src/sched/resource_manager.rs:108-111 | takes the most recent worker of the node and forgets an emptied list |
| Manager.ResourceManager.FindIdle | snapfaas/src/sched/resource_manager.rs:84-133 | makes the change specified for whichever idle node the map offers first |
| Manager.ResourceManager.UpdateOne | snapfaas/src/sched/resource_manager.rs:151-171 | takes one entry of a report |
| Manager.ResourceManager.UpdateCached | snapfaas/src/sched/resource_manager.rs:151-171 | takes all entries, in whatever order they come |
| Manager.ResourceManager.Update | snapfaas/src/sched/resource_manager.rs:135-172 | makes the node clean, takes its memory figures and its counts, and touches nothing else |
| Manager.ResourceManager.DropCached | snapfaas/src/sched/resource_manager.rs:178-184 | drops the node from every function's list |
| Manager.ResourceManager.Terminate | snapfaas/src/sched/resource_manager.rs:186-195 | tells every worker of the list once, the most recent first |
| Manager.ResourceManager.Remove | snapfaas/src/sched/resource_manager.rs:174-196 | forgets the node, and tells exactly its idle workers |
| Manager.ResourceManager.RemoveAll | snapfaas/src/sched/resource_manager.rs:198-203 | leaves no node, no idle worker and no cached machine, and tells every idle worker |
| Manager.OneMore | snapfaas/src/sched/resource_manager.rs:151-171 | entries of a report act independently |
| Capacity.AddIdleConserves | snapfaas/src/sched/resource_manager.rs:72-82 | adding a worker keeps every clean node from promising more cached machines than it has idle workers |
| Capacity.FindIdleConserves | snapfaas/src/sched/resource_manager.rs:84-133 | so does choosing one |
| Capacity.RemoveConserves | snapfaas/src/sched/resource_manager.rs:174-196 | so does dropping a node |
| Capacity.UpdateConservesIff | snapfaas/src/sched/resource_manager.rs:135-172 | a report keeps it exactly when the machines it mentions, plus those the view keeps at its node for functions it is silent about, are covered by the workers idle there |
| Capacity.FullReportConservesIff | snapfaas/src/resource_manager.rs:171-183 | a report of a machine that keeps mentioning its functions, as all do, keeps it exactly when the machines it reports are no more than the workers idle there |
| Capacity.HistoryConservesIff | snapfaas/src/sched/resource_manager.rs:72-203 | through a history of calls no clean node ever promises more cached machines than it has idle workers exactly when each report was covered when it was processed |
| Capacity.OverlooksIff | snapfaas/src/sched/resource_manager.rs:84-133 | while some worker is idle, the scheduler finds none exactly when the first clean node listed for the function has none |
| Capacity.NoneMeansNoneIdle | snapfaas/src/sched/resource_manager.rs:84-133 | under it the scheduler finds nobody exactly when no worker is idle anywhere |
| Capacity.ServedBy | snapfaas/src/sched/resource_manager.rs:84-133 | a worker of the first clean node listed for the function serves, and no node is marked; without one, a worker of the node picked, which becomes dirty |
| Capacity.LastInFirstOut | snapfaas/src/sched/resource_manager.rs:72-133 | the worker that joined a node last is taken first, and the others wait as before |
| Capacity.HistoryIsOk | snapfaas/src/sched/resource_manager.rs:72-196 | after any sequence of calls no unwrap, decrement or pop can fail |
| Capacity.WorkersAreConserved | snapfaas/src/sched/resource_manager.rs:72-196 | every worker ever added is still idle, was handed out, or was told to terminate, as often as it was added |
| Capacity.UpdateView | snapfaas/src/sched/resource_manager.rs:150-171 | a report replaces exactly the counts it mentions, and only at its own node |
| Capacity.RemoveView | snapfaas/src/sched/resource_manager.rs:178-184 | dropping a node clears its counts and no others |
| Capacity.RemovedIsForgotten | snapfaas/src/sched/resource_manager.rs:174-196 | a node that was dropped is unknown, idle nowhere and listed nowhere, and all others are as they were |
| Capacity.FindIdleView | snapfaas/src/sched/resource_manager.rs:86-105 | choosing a cached node uses up one machine of that function there, and nothing else |
| Capacity.ViewIsTheReport | snapfaas/src/sched/resource_manager.rs:135-172 | for a machine that keeps mentioning its functions, the view after a report is the report |
| Capacity.OtherNodesKeepTheirView | snapfaas/src/sched/resource_manager.rs:135-196 | reports and departures of one node leave the view of every other node alone |
| Dispatch.ManagerIsOk | snapfaas/src/sched/rpc_server.rs:54-150 | in no interleaving of connections and scheduling thread can a lookup or pop of the shared manager fail |
| Dispatch.ManagerIsAHistory | snapfaas/src/sched/rpc_server.rs:54-150 | in every interleaving the shared manager is what the requests heard and the tasks in hand make of it, call by call, so what holds of histories of calls holds of the scheduler |
| Dispatch.QueueIsBounded | snapfaas/bins/scheduler/main.rs:27 | the task queue never holds more than its capacity |
| Dispatch.RefusedIffFull | snapfaas/src/sched/rpc_server.rs:92-119 | a submission is refused exactly when the queue is full, and is otherwise queued last, as it came |
| Dispatch.FifoOnce | snapfaas/src/sched/mod.rs:36-82 | tasks that reached a worker, then the one in hand, then the queue, are exactly the tasks accepted, in order |
| Dispatch.NoTaskTwice | snapfaas/src/sched/mod.rs:36-82 | no task reaches a worker twice, and those that do are a prefix of those accepted |
| Dispatch.RequestsAreAnsweredOnce | snapfaas/src/sched/rpc_server.rs:70-77 | every request for a task waits as an idle worker, is about to be served, or was answered by one task or one termination |
| Dispatch.OneTaskPerRequest | snapfaas/src/sched/rpc_server.rs:70-77 | a connection is sent no more tasks than it asked for |
| Dispatch.RepliesFollowLife | snapfaas/src/sched/rpc_server.rs:78-119 | a submission gets exactly the reply that its life calls for (refused, or listed and then finished): at most one, on the connection it came from |
| Dispatch.UnansweredUntilFinished | snapfaas/src/sched/rpc_server.rs:83-90 | a submission that is not settled gets no reply until somebody finishes it from then on |
| Dispatch.ReplyCanBeLost | snapfaas/src/sched/rpc_server.rs:96-116 | a task may be delivered and finished before its sender is on the wait list, and then its sender waits until somebody finishes it again |
| Dispatch.SentReplies | snapfaas/src/sched/rpc_server.rs:78-105 | the only replies are the refusal of a submission and the first result for one on the wait list |
| Dispatch.SentDelivers | snapfaas/src/sched/mod.rs:64-79 | a task counts as delivered only by a write that succeeded; a failed one is tried with another worker |
| Allocator.LoopConserves | snapfaas/src/resource_manager.rs:204-215 | eviction moves memory from the cache to the free memory and keeps the functions known |
| Allocator.PassFrees | snapfaas/src/resource_manager.rs:205-214 | a pass over a cache that holds memory frees some |
| Allocator.LoopEnds | snapfaas/src/resource_manager.rs:203-216 | if the cache holds enough, one pass per megabyte is enough patience |
| Allocator.EvictionEndsIff | snapfaas/src/resource_manager.rs:196-217 | eviction returns exactly when the request exceeds all memory or the cache holds at least the request |
| Allocator.EvictionFrees | snapfaas/src/resource_manager.rs:203-216 | it frees at least the request and less than the request plus one machine of each function that has one cached |
| Allocator.LaterPassesFreeLess | snapfaas/src/resource_manager.rs:203-216 | no pass of the eviction loop frees more than the one before it |
| Allocator.ReleasedIsTakenNext | snapfaas/src/resource_manager.rs:135-162 | the machine cached last is taken first, and taking it undoes caching it |
| Allocator.EvictionKeepsTheOldest | snapfaas/src/resource_manager.rs:203-216 | eviction takes from each list the machines cached last, at most one a pass |
| Allocator.ReservationHangsIff | snapfaas/src/resource_manager.rs:185-194 | a reservation never returns exactly when free memory is short, the machine is large enough, and the cache alone does not hold the request |
| Allocator.ReservationSucceeds | snapfaas/src/resource_manager.rs:185-194 | a reservation that fits, or that the cache can pay for, succeeds and counts one machine |
| LocalManagers.LocalManager.constructor | snapfaas/src/resource_manager.rs:36-56 | starts with all memory free |
| LocalManagers.LocalManager.SetTotalMem | snapfaas/src/resource_manager.rs:70-90 | refuses 0 and more than there is; otherwise resets total and free memory |
| LocalManagers.LocalManager.GetCachedVm | snapfaas/src/resource_manager.rs:135-139 | takes the machine cached last and reports |
| LocalManagers.LocalManager.NewVm | snapfaas/src/resource_manager.rs:141-149 | reserves the memory, numbers the machine by the running count, and reports |
| LocalManagers.LocalManager.Release | snapfaas/src/resource_manager.rs:151-162 | caches the machine under its own function and reports |
| LocalManagers.LocalManager.Delete | snapfaas/src/resource_manager.rs:164-169 | returns the memory and reports |
| LocalManagers.LocalManager.UpdateScheduler | snapfaas/src/resource_manager.rs:171-183 | sends the number of machines cached for every function known, zero included |
| LocalManagers.LocalManager.PopEach | snapfaas/src/resource_manager.rs:205-214 | one pass pops one machine off each list, whatever the order of the map |
| LocalManagers.LocalManager.DummyEvict | snapfaas/src/resource_manager.rs:199-217 | after the passes it is watched for, the loop is where the specification says |
| LocalManagers.LocalManager.TryAllocateMemory | snapfaas/src/resource_manager.rs:186-194 | takes free memory first, evicts otherwise; the subtraction never underflows |
| LocalManagers.TryAllocate | snapfaas/src/worker.rs:234-245 | a worker takes a cached machine unless it is too tainted for the payload, and then puts it back before asking for a new one |
| LocalManagers.EvictedEnough | snapfaas/src/resource_manager.rs:187-189 | after a successful eviction the free memory covers the request |
| Machines.TryAllocateIs | snapfaas/src/worker.rs:234-245 | a refused cached machine is back where it was, so what follows is a plain request for a new one; a machine used runs the function asked for |
| Machines.RunKeyed | snapfaas/src/resource_manager.rs:152-160 | machines are cached under the function they run, whatever the workers do |
| Machines.RunPublic | snapfaas/src/vm.rs:70-79 | every machine cached or in use is public |
| Machines.CachedIsUsedIff | snapfaas/src/worker.rs:236-243 | so a cached machine serves a task exactly when the label of the task claims no integrity |
| Machines.MemoryIsConserved | snapfaas/src/resource_manager.rs:135-194 | free memory, cached machines and machines in use always add up to all memory |
| Machines.IdsAreUnique | snapfaas/src/resource_manager.rs:141-149 | an identifier names at most one machine, cached or in use, and only if it was given out |
| Machines.RoomForOne | snapfaas/bins/multivm/main.rs:49-50 | while some worker holds nothing, a unit is free or cached |
| Machines.WorkersNeverStarve | snapfaas/bins/multivm/main.rs:49-50 | with 128 MB functions and one worker per 128 MB, a worker that asks always gets a machine |
| Machines.EvictionCanHang | snapfaas/src/resource_manager.rs:204-215 | with other sizes a request can hang although free and cached memory together cover it |
| ViewAgreement.ReportsGrow | snapfaas/src/resource_manager.rs:152-183 | a machine's reports never stop mentioning a function, and the last one is its cache |
| ViewAgreement.SchedulerSeesTheCache | snapfaas/src/sched/resource_manager.rs:135-172 | once the scheduler has processed what a machine sent, its view of the node is the machine's cache |
| ViewAgreement.SchedulerSeesTheMemory | snapfaas/src/sched/resource_manager.rs:135-172 | and it knows the machine's total and free memory |
| ViewAgreement.ViewLagsBehind | snapfaas/src/sched/resource_manager.rs:135-172 | in between it is the cache as the last processed report showed it |
| Retrying.Process | snapfaas/src/worker.rs:122-192 | a worker releases the machine after the first good run, gives it up after five tries only if a launch worked by then, never reports a launch failure, and otherwise goes on |

## Left out

- Server.SyscallProcessor.DentUpdateGate: the names of a direct gate's images come with the update; in the code they are read from blobs right after the gate, so the label is the same join in another order.
- Server.SyscallProcessor.DentRead: when the descriptor is not a file nothing is read and no turn is recorded; the answer is then only the absence of data.
- Server.SyscallProcessor.SetNewId: random numbers are a list given at the start, so the loop ends when the list does; that a free number is drawn some day is not claimed.
- Server.SyscallProcessor.ResolveGate: the loop is watched for a number of passes, because on a cyclic chain the code never returns.
- Server.SyscallProcessor.InvokeService: what comes back from the service is arbitrary; the request itself and whether it succeeds are not modelled.
- Server.SyscallProcessor.DoSyscall: BuckleParse, Root and the calls on the blob store touch neither labels nor the object store and are not operations; SubPrivilege is not implemented in the code. An invocation is a resolution, a turn that starts the other run, and a turn that takes its reply.
- Server.SyscallProcessor.TakeResponse: who answers a synchronous invocation is not decided here; any label may arrive, and the accounts follow it when it is that of a run that has responded.
- Paths.FileSystem.ReadPath: a single thread on a store that nobody else changes; under interference each listing and each facet opening is covered by the protocol, the traversal as a whole is not.
- Exposure.WholeRunConfinement: speaks of labelled cells only, as facet lists carry no label; what happens to them is covered by facet agreement.
- Accountability.FlowsAreAccountedFor: what is learned from a facet list brings no debts, because the list has no label to owe them to (`FacetListsTell` is such a flow); neither does the number of an object. What an external service receives leaves the system.
- Granting.GrantsBoundFlows: covers the flows that the accounts cover.
- Noninterference.TwoRuns: one thread without interference and without service calls, and with the same random numbers in both runs; termination and timing are not observations.
- FloatingLabel.LabelIsTheJoin: says that the label passes the same checks as the join; the two may be different formulas.
- Manager.ResourceManager.FindIdle: which idle node the map offers first is not specified, and is reported as a ghost result.
- Dispatch.RepliesFollowLife: identifiers are taken to be fresh and not nil, as `Uuid::new_v4` makes them but for a negligible chance; replies are tagged with the identifier they answer, which the wire does not carry.
- Dispatch.FifoOnce: a write that reports an error is taken not to have reached its peer. A queue of capacity 0, which hands tasks over without storing them, is modelled as always full.
- LocalManagers.LocalManager.DummyEvict: the loop is watched for a number of passes, because the code may never return.
- Concurrency inside one lock: the scheduler's and the allocator's methods run under a mutex, so each is one step; the dispatch loop and the request loop are given as steps, not as loops, because their meaning is their interleaving.
- Wake-ups and fairness: the scheduling thread may look for a worker at any time, so nothing is claimed about when a waiting task is served.
- Serialization: values are compared as values, taking JSON to be injective. Uids are 64-bit; counters of descriptors and virtual machines, and memory sums, are unbounded.
- Error returns of the worker carry labels that are not modelled.
- Blob descriptors and the blob store, string parsing of labels and paths, `create_or_update_*` and the other path-taking wrappers, deletion of objects and the garbage collector, LMDB and TiKV internals, HTTP, sockets and framing, front ends and command line tools.

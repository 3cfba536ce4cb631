# Forgehand protocol proofs

Forgehand runs LLM agents through a workflow graph and publishes their work as pull requests.
This project models the protocol and bookkeeping layer around the models: what survives lost
responses, crashes, redeliveries, parallel branches and slow clients. Models, judges, agents,
Docker, GitHub, clocks and people are inputs of the model and may answer anything.

| file | component |
|---|---|
| `Publication.dfy` | pinned publication: tree, commit, branch ref and pull request, request by request |
| `PublicationTrees.dfy`, `PublicationIntent.dfy`, `PublicationProofs.dfy`, `PublicationResults.dfy`, `PublicationReports.dfy`, `PublicationClient.dfy` | the published tree; the intent marker; what the runs guarantee and report; the client as a straight line |
| `Delivery.dfy` | from the tasks' evidence to the published tree |
| `Workflow.dfy`, `WorkflowProofs.dfy`, `WorkflowResults.dfy`, `WorkflowEffects.dfy` | the workflow graph as a state machine, its safety and termination, how runs end, and what each edge changes |
| `Dispatching.dfy` | which ready tasks one superstep sends out |
| `RedCommit.dfy` | whom a red commit reopens, and a run that ends with one |
| `Tasks.dfy`, `Planner.dfy` | the task reducer and the planner's acceptance of a dependency graph |
| `CallBudget.dfy`, `CallBudgetProofs.dfy`, `BudgetForest.dfy`, `BudgetEffects.dfy`, `Spending.dfy`, `WorkflowSpending.dfy` | nested call budgets, and what parallel branches may spend |
| `BuildEvidence.dfy` | build reports from the sandbox runner to the delivery gate |
| `Evidence.dfy`, `EvidenceDelivery.dfy` | file evidence: merging rounds, collecting a delivery, blaming a red commit; all of it from the first round to the delivered tree |
| `Containers.dfy`, `ContainerProofs.dfy`, `ContainerEffects.dfy`, `ContainerRunner.dfy` | container journal, quarantine and checkout across crashes |
| `Resume.dfy`, `ResumeProofs.dfy` | human decisions under redelivery |
| `Ledger.dfy`, `LedgerProofs.dfy` | the product delivery ledger with optimistic revisions |
| `ToolLoop.dfy`, `SearchReplace.dfy`, `EditFile.dfy` | the bounded tool loop and the edit tool's search and replace |
| `Inventory.dfy` | reading CI evidence completely, classifying it, and waiting for it |
| `Common.dfy` | optional values; Python's strip, split and join |

Protocols that may be cut at any request are state machines over values whose runs are sequences
of events; where the program is a straight line or a loop over its own fields, a class or a
method is proved to perform exactly those steps or to compute exactly the specified value. Money
is exact. Digests, UUIDs and git object names are taken to be injective.

Seven promises of the program turned out to hold only under a condition. Each has the exact
condition, and a run or an input that breaks it:

- Republishing the same content finds an identical tree exactly when no path is both written and
  deleted (`PublicationTrees.RepublishingChangesNothingIff`); such a path, written onto an empty
  tree, is deleted by the second publication (`PublicationTrees.RepublishingFlips`). For collected
  deliveries that means: when no recorded path loses outer blanks to a deleted one
  (`Delivery.DeliveriesRepublishIff`).
- A retried publication eventually returns exactly when there was something to propose before the
  first attempt (`PublicationResults.RetryReturnsIff`); otherwise a single lost answer leaves a
  branch on the bare base that every later attempt refuses (`PublicationResults.LeftStuckOnBase`).
- The head moves only from what the caller expected, up to its ancestors
  (`PublicationProofs.PatchMovesIff`): moved back by someone else between the read and the update,
  it is fast-forwarded over (`PublicationProofs.ForeignResetIsOverwritten`).
- A returned publication leaves every listed pull request open exactly when the one it names was
  found, or was opened where none was listed (`PublicationReports.ReturnedIsOpen`): one closed
  between the lookup and the creation gets a new one beside it
  (`PublicationReports.OpenedBesideClosed`).
- Retrying a container cleanup is safe exactly when the abandoned create request is over
  (`ContainerProofs.RetrySafeIff`); a run with one crash and one hasty retry ends with a live
  container nobody remembers (`ContainerRunner.HastyRetryLeaks`).
- A published commit changes the plan exactly when it is red, acted upon, and a blamed completed
  task was not already reopened for that commit (`WorkflowProofs.RedCommitReopensIff`); a workflow
  whose commit is red a second time is persisted as it is (`RedCommit.RedCommitPersists`).
- An edit without an occurrence number goes through exactly when all occurrences begin inside the
  first, so overlapping copies pass as unique (`EditFile.UnnumberedEditIff`,
  `EditFile.OverlapGoesUnnoticed`).

## Model

| member | source | states |
|---|---|---|
| PublicationTrees.TargetLookup | app/infrastructure/scm.py:486-511 | the published tree path by path: deletions present at the base are gone, else the last entry written for the path wins, else the base |
| PublicationTrees.RepublishingChangesNothingIff | app/infrastructure/scm.py:495-514 | applying the same files and deletions twice is applying them once, on every tree, if and only if no path is both written and deleted |
| PublicationTrees.RepublishingFlips | app/infrastructure/scm.py:495-514 | a path both written and deleted is there after one publication onto an empty tree and gone after two |
| PublicationProofs.SoundStep | app/infrastructure/scm.py:407-585 | no request of any interleaved attempt, delivered, lost or late, and no foreign push, breaks what a running attempt relies on; commits are only added |
| PublicationProofs.SoundRun | app/infrastructure/scm.py:407-585 | so over every run from an initial state, foreign pushes and closures included |
| PublicationProofs.OwnAncestry | app/infrastructure/scm.py:461-470 | a commit carrying the intent marker and its one parent has exactly the ancestry of that parent plus itself |
| PublicationProofs.RefMovesOnlyForward | app/infrastructure/scm.py:461-537 | over every run with arbitrary foreign pushes and closures: a request of an attempt changes the head branch only to a commit of its own intent or the pinned base, only from nothing where nothing was expected or from an ancestor of the expected parent |
| PublicationProofs.PatchMovesIff | app/infrastructure/scm.py:532-537 | the non-forced ref update succeeds if and only if the head is already the commit or an ancestor of the intent's parent |
| PublicationProofs.ForeignResetIsOverwritten | app/infrastructure/scm.py:461-537 | a run from an initial remote: the head, moved back by someone else after the attempt created its commit, is fast-forwarded over by the update |
| PublicationProofs.SettledStep | app/infrastructure/scm.py:407-585 | without foreign actions every step keeps the branch at the expected head or one own commit past it, and at most one pull request |
| PublicationResults.PinnedPublicationIsIdempotent | app/infrastructure/scm.py:407-585 | for any number of interleaved or retried attempts, each cut after any request: the head is the expected one, the bare pinned base, or one own commit past its parent holding the pinned base patched by the intent; at most one pull request exists; and every attempt that returned reports exactly that head, tree and pull request |
| PublicationResults.RetryReturnsIff | app/infrastructure/scm.py:407-585 | after any history of interleaved, crashing attempts, one more undisturbed attempt returns if and only if the arguments are publishable and, before the first attempt, there was new content, a commit past the base or an open pull request |
| PublicationResults.LeftStuckOnBase | app/infrastructure/scm.py:461-470 | with nothing to propose on a new branch, one lost answer leaves the branch on the pinned base and every later attempt refused |
| PublicationIntent.RecognisesIff | app/infrastructure/scm.py:445-471 | a publication takes a commit for its own if and only if its creator had the same text, repository, branches, base, expected head, contents for every path and deletions, in whatever order they were listed, on the expected parent |
| PublicationIntent.SameFilesIff | app/infrastructure/scm.py:447-460 | the listed files sort to the same list if and only if they give every path the same contents in the same order |
| PublicationReports.FatesOf | app/infrastructure/scm.py:407-585 | a request not received changes nothing; one whose answer is lost changes what it would have; the client gives up either way, except that it looks again for a pull request |
| PublicationReports.RefusedAtOnceIff | app/infrastructure/scm.py:422-437 | a publication is refused before any request if and only if the repository has no owner, nothing is to be published, a path is blank, or head and base are the same branch |
| PublicationReports.LookupConcludes | app/infrastructure/scm.py:826-846 | a delivered lookup fails if and only if some listed pull request is closed, reports the first if there is one and all are open, and else goes on to open one or is refused |
| PublicationReports.ReturnedIsOpen | app/infrastructure/scm.py:538-585 | over every run, foreign pushes and closures included, an attempt that returns names the newest pull request, open; every listed one is open if and only if it was looked up, or opened where none was listed |
| PublicationReports.OpenedBesideClosed | app/infrastructure/scm.py:538-585 | a run from an initial remote: a pull request closed between another attempt's lookup and its creation, which opens a second one and reports it |
| PublicationReports.SoloReports | app/infrastructure/scm.py:407-585 | what a lone attempt that returns reports, whatever answers were lost: the head is the reported commit with the patched tree; changed if and only if this attempt created it, the only commit added, on the head found; a listed pull request is reused |
| PublicationClient.SoloAdvances | app/infrastructure/scm.py:407-585 | one attempt run on its own is a run of the interleaved machine, so the results above apply to it |
| PublicationClient.GitHub.PublishPullRequest | app/infrastructure/scm.py:407-585 | the straight-line client performs exactly the requests of one attempt, whatever happens to each of them |
| PublicationClient.GitHub.PushCommit | app/infrastructure/scm.py:514-537 | creating the commit and moving the ref is that part of the attempt, request by request |
| PublicationClient.GitHub.PushRef | app/infrastructure/scm.py:526-537 | creating or updating the ref is that part of the attempt |
| PublicationClient.GitHub.OpenOrReuse | app/infrastructure/scm.py:538-585 | an existing pull request is reused, a lost creation is looked up again, no second one is opened |
| PublicationClient.GitHub.ExistingPull | app/infrastructure/scm.py:826-846 | the loop over the listed pull requests concludes what one lookup of the protocol does |
| Delivery.DeliveredTree | app/infrastructure/scm.py:486-511 | the tree published for a delivery is the base with every task's changes applied in order, however the collected files and deletions are listed, as long as recorded paths carry no outer blanks |
| Delivery.WritesTheCollectionIff | app/infrastructure/scm.py:486-502 | the publication writes exactly the collected changes on every base if and only if no recorded path carries outer blanks, which are stripped from written paths but not from deleted ones |
| Delivery.DeliveriesRepublishIff | app/infrastructure/scm.py:495-514 | a delivery can be published again without changing any tree if and only if no recorded path, stripped, is one it deletes |
| WorkflowProofs.TaskOutcome | app/graph/phase_execution.py:154-553 | what one branch makes of its task: one attempt more with the fresh report as re-checked; completed if and only if no budget was blocked, the judge approved and the report in force stands (with a profile: the delivery gate accepts it); else escalated if a budget was blocked, the judge failed or no attempt is left; else rejected |
| WorkflowResults.SuperstepEffect | app/graph/state.py:41-77 | a superstep makes of each dispatched task exactly what its own branch made of it and leaves the others alone |
| WorkflowResults.CompletedWasEarned | app/graph/phase_execution.py:154-215 | in every reachable state each completed task is exactly the outcome of a branch that the judge approved, that no budget blocked and whose report stood |
| WorkflowResults.JudgedTo | app/graph/state.py:294-316 | where every reachable evaluation leads: delivery if and only if all is completed and nothing blocked, a person if there is no budget, an escalation or no iteration, replanning if and only if a task is rejected, else on with a ready pending task |
| WorkflowResults.EndsDelivered | app/graph/workflow.py:131-223 | a workflow that ends without failing has delivered: every task completed, or outside the factory a partial result accepted; in the factory with a complete green delivery; and nothing else is ever published |
| WorkflowEffects.EveryStepIsAnEdge | app/graph/workflow.py:131-223 | every step of every run follows an edge of the graph's table |
| WorkflowEffects.SettingsFrame | app/graph/workflow.py:131-223 | mode, lease and publisher never change; strategy, decision, delivery and failure change only where their node writes them |
| WorkflowEffects.WorkFrame | app/graph/workflow.py:131-223 | plan, limits, usage and iteration change only where their node writes them |
| WorkflowEffects.PlanEffect | app/graph/phase_setup.py:152-180 | a plan is made once, of exactly the planned tasks; a refused planner blocks the budget |
| WorkflowEffects.DispatchEffect | app/graph/phase_execution.py:101-146 | tasks are sent out if and only if there is budget, something is ready and the policy picks some of it; else to a person or to evaluation |
| WorkflowEffects.ReplanEffect | app/graph/phase_review.py:106-140 | replanning takes one iteration and returns exactly the picked rejected or pending tasks to pending, history kept |
| WorkflowEffects.GrantEffect | app/graph/phase_review.py:269-309 | a grant returns exactly the escalated tasks to rejected, adds one iteration, lifts the block and gives more time if and only if it ran out, by a minute or a quarter |
| WorkflowEffects.DecidedTo | app/graph/phase_review.py:233-249 | where each decision leads from a reachable gate: only a retry continues, only outside the factory a partial result goes out, anything else aborts |
| WorkflowEffects.RefusedPublication | app/graph/phase_delivery.py:134-153 | a factory workflow without lease, publisher, full approval or accepted evidence records an error and nothing else |
| WorkflowEffects.PublishEffect | app/graph/phase_delivery.py:134-220 | otherwise the delivery is recorded, and a red one nobody accepted rejects, or escalates with no attempt left, exactly the blamed completed tasks not yet reopened for that commit |
| WorkflowEffects.PublishedTo | app/graph/phase_delivery.py:222-240 | where publishing leads from every reachable state: a factory workflow ends only when ready for review; reopened tasks are replanned while there is budget and an iteration |
| WorkflowEffects.UsageAddsUp | app/graph/state.py:103-114 | over every run the recorded usage is the initial one plus everything reported since, each report once |
| WorkflowProofs.StepKeepsInv | app/graph/workflow.py:151-223 | every edge of the graph keeps the workflow invariant |
| WorkflowProofs.EveryReachableState | app/graph/workflow.py:151-223 | in every reachable state iteration is at most the maximum, replanning starts only below it, ids are distinct, and every completed factory task carries accepted evidence |
| WorkflowProofs.DeliveryGateCannotFailOnTasks | app/factory/delivery.py:32-59 | once all factory tasks are completed the per-task checks of the gate cannot fail: it is open if and only if its other checks, taken together, hold and no partial result was accepted |
| WorkflowProofs.GateHasAReason | app/graph/state.py:294-316 | after evaluation the human gate is reached if and only if the budget is blocked or exhausted, a task escalated, or rejected tasks have no iteration left: the dependency-deadlock exit is unreachable |
| WorkflowProofs.GrantGivesHeadroom | app/graph/phase_review.py:257-309 | an authorised retry leaves token, cost, time and iteration headroom, no escalated task and no pending decision |
| WorkflowProofs.StepDescends | app/graph/workflow.py:151-223 | every step away from a human gate decreases a lexicographic measure over stage, iterations left, first dispatch, pending tasks and position in the cycle |
| WorkflowProofs.RunUntilHuman | app/graph/workflow.py:151-223 | between two human decisions every run halts, whatever planners, agents, clocks and CI answer |
| WorkflowProofs.RedCommitReopensIff | app/graph/phase_delivery.py:71-132 | a published commit changes the plan if and only if the gate let it be published, it is red, no partial result was accepted, and a blamed completed task was not yet reopened for that commit; in factory mode or not |
| WorkflowProofs.RedCommitThatReopensNothing | app/graph/phase_delivery.py:222-240 | if it changes nothing, an approved workflow with budget goes to the human gate in factory mode and is otherwise persisted with the red result |
| RedCommit.BlamedIds | app/graph/phase_delivery.py:71-132 | the ids handed to the workflow are those of the tasks the evidence blames |
| RedCommit.OwnersAreReopenedIff | app/graph/phase_delivery.py:71-132 | with that blame, the plan changes if and only if a completed task that published changes (in factory mode: that owns a failing path, all failing paths being owned) was not yet reopened for the commit |
| RedCommit.RedCommitPersists | app/graph/phase_delivery.py:71-132 | a run from creation in which the same commit is red twice: the second time the workflow is persisted, approved and unchanged, with the red result |
| Dispatching.SelectDispatchable | app/graph/phase_execution.py:65-85 | the counting loop selects the tasks in order, each unless its agent is at that task's limit; one task only in factory mode |
| Dispatching.WithoutPolicyAllGo | app/graph/phase_execution.py:65-85 | without a dispatch policy nothing is held back |
| Dispatching.ChosenFromCandidates | app/graph/phase_execution.py:65-85 | the selection holds only candidates, none twice |
| Dispatching.LoadCounts | app/graph/phase_execution.py:65-85 | the load of an agent is the number of selected tasks that go to it |
| Dispatching.AgentWithinLimit | app/graph/phase_execution.py:65-85 | no agent is given more tasks than the largest limit its tasks name |
| Dispatching.LeftOutOnlyAtLimit | app/graph/phase_execution.py:65-85 | a candidate is left out only if its agent already has as many tasks as its limit |
| Dispatching.SelectionIsLegal | app/graph/phase_execution.py:101-146 | the selection is one the router may send, and empty if and only if nothing is ready or no candidate's agent has capacity |
| Tasks.MergeTasksById | app/graph/state.py:41-77 | the dictionary loop is the reducer, for any lists; its result has distinct ids |
| Tasks.KeyedIsItself | app/graph/state.py:41-77 | reading a plan with distinct ids into the dictionary changes nothing |
| Tasks.KeyedKeepsTheLast | app/graph/state.py:41-77 | reading any plan into the dictionary keeps of each id the last task, once |
| Tasks.ResolvedTo | app/graph/state.py:41-77 | a completed task yields to another status only for a new reopen reason, an escalated one only to rejected, cancelled or escalated, and otherwise the update wins if and only if it is not older |
| Tasks.MergePointwise | app/graph/state.py:41-77 | for updates with distinct known ids the merge keeps order and length and resolves each task with its own update |
| Tasks.MergeConcat | app/graph/state.py:41-77 | merging two lists one after the other is merging their concatenation, for any lists |
| Tasks.MergeAnyOrder | app/graph/state.py:41-77 | branches touching different known tasks merge to the same plan in any order |
| Tasks.MergeTwice | app/graph/state.py:41-77 | merging the same updates again changes nothing |
| Tasks.EveryMoveIsLegal | app/graph/state.py:41-77 | at every point of any merge a completed task is left only by a new reopen reason and an escalated one only to rejected or cancelled |
| Planner.IndicesInRange | app/agents/planner.py:180-221 | the index check accepts exactly plans whose dependencies are in range and not self-referring |
| Planner.Dependents | app/agents/planner.py:180-221 | the reverse adjacency lists name each dependent once per mention |
| Planner.Sources | app/agents/planner.py:180-221 | the initial stack holds exactly the tasks without dependencies |
| Planner.Discharge | app/agents/planner.py:180-221 | visiting a task leaves every other with its count of unvisited dependencies and stacks exactly those at zero |
| Planner.RankedHasNoCycle | app/agents/planner.py:180-221 | a ranking that every dependency decreases excludes cycles |
| Planner.StuckHasCycle | app/agents/planner.py:180-221 | tasks that all wait for each other contain a cycle |
| Planner.Accepts | app/agents/planner.py:180-221 | the stack-based sort accepts a plan if and only if its indices are valid and it has no cycle, duplicate indices included |
| Planner.CheckedInPlainTerms | app/agents/planner.py:180-221 | what valid indices and a cycle are: every index names another task, and no round trip along dependencies |
| Planner.SomeTaskIsReady | app/graph/state.py:246-260 | while an accepted plan has an incomplete task and all incomplete ones may be dispatched, some task is ready; planned tasks need not be distinct |
| CallBudgetProofs.ReserveSucceedsIff | app/infrastructure/llm_budget.py:33-72 | a reservation on a chain of any depth succeeds if and only if no budget on it is blocked and the request fits the remaining allowance, that is, if every limit covers measured, unconfirmed, reserved and requested tokens and money |
| CallBudgetProofs.ReserveEffect | app/infrastructure/llm_budget.py:43-72 | success reserves the amount on every budget of the chain; failure changes no counter and blocks exactly the first budget from the bottom that cannot admit it |
| CallBudgetProofs.ClosingEffect | app/infrastructure/llm_budget.py:91-111 | on every budget of the chain, figure by figure: the reserved amount is given back; a known usage is added to measured and blocks if above the reservation; an unknown one keeps the estimate as unconfirmed; a release does nothing else |
| CallBudgetProofs.AccountsAre | app/infrastructure/llm_budget.py:20-32 | the accounts of a chain are the fields of its budgets |
| CallBudgets.CallBudget.RemainingAllowance | app/infrastructure/llm_budget.py:33-41 | the recursive walk returns the least free amount over the chain |
| CallBudgets.CallBudget.Reserve | app/infrastructure/llm_budget.py:43-72 | the linked objects end in the specified state and the reservation mirrors the chain |
| CallBudgets.Reservation.Release | app/infrastructure/llm_budget.py:91-95 | releasing returns exactly the reserved amount to every budget of the chain |
| CallBudgets.Reservation.Settle | app/infrastructure/llm_budget.py:97-111 | settling closes the reservation on the whole chain, as measured at the usage given if both figures are known and as unknown otherwise |
| BudgetForest.ReserveRefines | app/infrastructure/llm_budget.py:43-72 | reserving in the forest does to each chain what the object method does |
| BudgetForest.StepKeeps | app/infrastructure/llm_budget.py:20-132 | create, attach, reserve, release, settle and leaving a scope, in any order, keep the accounts equal to their logs |
| BudgetForest.BlockingStays | app/infrastructure/llm_budget.py:43-132 | a blocked budget stays blocked |
| BudgetForest.ForestInvariant | app/infrastructure/llm_budget.py:20-132 | over every run each budget's measured, unconfirmed and reserved figures are the sums of the known usages, the unconfirmed estimates and the outstanding amounts of the reservations made on it; one that is unblocked, or had no overrun, has all three within its limit; blocking is permanent |
| BudgetEffects.ReserveEffectOn | app/infrastructure/llm_budget.py:43-72 | in the forest: granted if and only if every budget on the path covers the request, then held by all of them; else one that does not cover it is blocked and no counter changes |
| BudgetEffects.CloseEffectOn | app/infrastructure/llm_budget.py:91-111 | in the forest: closing concludes the reservation on every budget of its path and on no other |
| BudgetEffects.LeaveEffectOn | app/infrastructure/llm_budget.py:117-132 | leaving the scope of a blocked budget blocks its parent and does nothing else |
| BudgetForest.AttachFirstIsLoyal | app/infrastructure/llm_budget.py:122-132 | a budget attached before its first reservation routes all its reservations through its parent |
| BudgetForest.LoyaltyStays | app/infrastructure/llm_budget.py:43-132 | and stays so through every later operation that does not move it to another parent |
| BudgetForest.AttachedFirstIsLoyal | app/infrastructure/llm_budget.py:122-132 | over every run, a budget attached before any reservation went through it ends with all its reservations routed through that parent |
| BudgetForest.ParentDominates | app/infrastructure/llm_budget.py:43-132 | over every run of operations: the measured, unconfirmed and reserved totals of a parent are at least the sum of those of any distinct children attached to it before their first reservation and to no other budget |
| BudgetForest.LateAttachEscapes | app/infrastructure/llm_budget.py:122-132 | a budget attached after it reserved can hold more than its parent ever saw |
| Spending.ReadingWithin | app/graph/call_budget.py:21-102 | a meter none of whose calls overran its reservation reads within its limit, for every run of the meter |
| Spending.SharesAddUp | app/graph/phase_execution.py:88-98 | the equal shares add up to what is left: all of the money and all tokens but fewer than one a task; an exceeded limit leaves nothing |
| Spending.BranchLimitIsTheSmaller | app/graph/call_budget.py:21-50 | a branch may spend the smaller of its share and what its task has left, never below nothing |
| Spending.RecordedIsTheLarger | app/graph/call_budget.py:67-76 | what is recorded covers the report and the meter, and is the least that does |
| Spending.FanOutWithin | app/graph/call_budget.py:21-102 | the readings of all branches together, and then the usage joined from them, stay within the workflow budget |
| Spending.NeverOverspent | app/graph/state.py:103-114 | over every run of nodes, fan-outs and grants, measured plus unconfirmed usage stays within the budget if calls respect reservations and agents report no more than is metered |
| Spending.TaskNeverOverspent | app/graph/call_budget.py:84-102 | the task's own record ends as its old usage plus the metered one, within the task's budget |
| Spending.GrantGivesHeadroom | app/graph/phase_review.py:269-309 | after a grant use is strictly below every limit; a limit not exhausted is as it was unless the workflow was blocked, an exhausted one is twice the larger of itself and the use |
| Spending.RetriedTaskHasHeadroom | app/graph/phase_review.py:257-266 | the task's own budget after a retry: no limit lower, use strictly below both |
| Spending.OverReportingOverspends | app/graph/call_budget.py:67-76 | from every state within its budget there is a report above the meter that ends overspent after one step: the assumption cannot be dropped |
| WorkflowSpending.StepSpends | app/graph/workflow.py:151-223 | every honest step of the workflow graph changes usage and limits as one step of the spending rules, or not at all |
| WorkflowSpending.RunsSpend | app/graph/workflow.py:151-223 | every honest run of the graph is a run of the spending rules |
| WorkflowSpending.WorkflowNeverOverspends | app/graph/workflow.py:151-223 | in every state of every honest run of the graph, through fan-outs, replans, decisions and grants, recorded usage is within the workflow budget |
| BuildEvidence.SuccessIsClean | app/factory/sandbox.py:404-549 | a phase reports success if and only if it exited with zero, was not cancelled and was cleaned up; then code zero, no error |
| BuildEvidence.RunPhases | app/factory/sandbox.py:241-258 | phases run in the profile's order up to the first that fails |
| BuildEvidence.RunCases | app/factory/sandbox.py:269-298 | acceptance cases run in order; a stopped suite cannot pass |
| BuildEvidence.SuitePassesIff | app/models/build_execution.py:60-100 | a fully run suite passes if and only if it has cases with different ids, each ran to exit zero offline with exactly the expected output, and every required criterion belongs to a case |
| BuildEvidence.AllWellIff | app/factory/sandbox.py:186-303 | a run is all well if and only if the architecture held before and after, every phase exited with zero and was cleaned up, and the suite gave what was expected |
| BuildEvidence.RunProfile | app/factory/sandbox.py:186-303 | a run succeeds if and only if both architecture checks, every phase and the whole suite do; otherwise the report is that of the phase that stopped it |
| BuildEvidence.UnvetoedIffGateAccepts | app/graph/build_evidence.py:145-203 | a report that survives the worker's checks and the veto is exactly one the delivery gate accepts |
| BuildEvidence.GateBindsSelection | app/factory/delivery.py:32-67 | a report accepted for two selections was made for both: same profile, digest, phases, acceptance and, where both name one, architecture policy; and it is a success whose phases all exited clean |
| BuildEvidence.SameMaps | app/factory/acceptance.py:9-26 | case results matching a suite have exactly the digests of the selection |
| BuildEvidence.DistinctCount | app/factory/acceptance.py:9-26 | distinct case ids are all present in the digest map and counted once |
| BuildEvidence.RunAndValidate | app/graph/phase_execution.py:236-283 | for a registered profile the gate accepts the re-checked report of a run if and only if all went well in it |
| Evidence.MergeWorkspaceEvidence | app/agents/executor.py:422-508 | the popping and overwriting loops compute the specified merge |
| Evidence.FirstRound | app/agents/executor.py:422-508 | the first well-formed round describes the change from the start |
| Evidence.NextRound | app/agents/executor.py:422-508 | merging a round into a record that describes the change so far describes the change after it |
| Evidence.MergedEvidenceComposes | app/agents/executor.py:422-508 | for any number of rounds the merged record, published over the starting tree, yields the final tree; published and deleted are disjoint; created means absent at the start and present at the end, deleted the reverse |
| Evidence.CollectPublishableChanges | app/infrastructure/scm.py:93-134 | for every path the collected content or removal is the last word any task has on it; the two lists are disjoint |
| Evidence.CollectionIsApplication | app/infrastructure/scm.py:93-134 | publishing the collection over the first tree is applying all tasks' changes in order |
| EvidenceDelivery.CollectionIsTheWork | app/infrastructure/scm.py:93-134 | told from the records alone: the collection, published over the tree the first task started from, gives the tree the last one left, workspace records, legacy lists and empty results mixed |
| EvidenceDelivery.LegacyIsItsLastContents | app/infrastructure/scm.py:116-127 | a legacy list is collected as the last content of each path it names, and no deletion |
| EvidenceDelivery.RoundsAreDelivered | app/agents/executor.py:422-508 | from the first round of the first task to the delivery: whatever was created, changed and deleted over any rounds of any tasks, the merged records collected and published give exactly the last tree |
| Evidence.OwnerMatchesPublished | app/graph/phase_delivery.py:84-106 | every published path has the content or removal of its owner, the last completed task with a word on it, and no other path has an owner |
| Evidence.ReopenAfterCiFailure | app/graph/phase_delivery.py:71-132 | the reopened tasks are those that publish changes and, in factory mode, own a failing path, none if some failing path has no owner |
| EvidenceDelivery.BlamedAreTheLastToTouch | app/graph/phase_delivery.py:84-108 | told from the records alone: without a work order every task that published anything is blamed; in factory mode, if every failing path was touched by some task, exactly those that were the last to touch one |
| ContainerProofs.Undisturbed | app/factory/lifecycle.py:139-161 | a step that leaves a workflow's entries alone leaves its invariant alone |
| ContainerProofs.StepKeeps | app/factory/sandbox.py:168-303 | every step of run, daemon, crash, retry and lease keeps every live or pending container journalled, given that no retry overtakes an abandoned create |
| ContainerProofs.RetrySafeIff | app/factory/sandbox.py:168-184 | a retried cleanup is safe if and only if it does not take an absence for an answer while the create request is under way |
| ContainerProofs.NoContainerLeaks | app/factory/sandbox.py:404-531 | over every run with crashes and restarts: each container alive or pending is journalled under its workflow, at most one per workflow, no phase starts and no checkout is removed while one is |
| ContainerProofs.CrashForgetsNothing | app/factory/lifecycle.py:106-122 | after a restart a journalled container still blocks its workflow and is the one a retry goes after |
| ContainerEffects.CleanUpEffect | app/factory/sandbox.py:500-531 | at the end of a phase the container is gone and struck from the journal if and only if the calls worked and it was there or answered for; else it stays journalled and is quarantined; no other workflow is touched |
| ContainerEffects.RetryEffect | app/factory/sandbox.py:168-184 | a retry that works removes the journalled, or else the quarantined, container and frees the workflow; one that fails keeps it journalled and quarantined |
| ContainerEffects.RetryFrees | app/factory/sandbox.py:168-184 | after a retry that worked a run may begin if and only if the lease is past provisioning |
| ContainerEffects.OneRequestPerPhase | app/factory/sandbox.py:450-462 | a container is asked for only under the name journalled for its workflow |
| ContainerEffects.ContainersComeAndGo | app/factory/sandbox.py:372-395 | a container appears only by a request under way and goes only by a cleanup of its own workflow that worked |
| ContainerEffects.CheckoutEffect | app/factory/workspace.py:284-472 | a checkout appears at the end of provisioning or when rebuilt and goes only when it is removed |
| ContainerRunner.BuildRunner.constructor | app/factory/sandbox.py:138-159 | a new process starts with everything journalled in quarantine |
| ContainerRunner.BuildRunner.Cleanup | app/factory/sandbox.py:372-395 | removal is reported only for a container inspected, labelled as this run's and removed, or known to be absent for good |
| ContainerRunner.BuildRunner.RetryCleanup | app/factory/sandbox.py:168-184 | the retry is refused while a phase runs and is otherwise exactly the retry step |
| ContainerRunner.BuildRunner.Create | app/factory/sandbox.py:450-462 | the name is remembered, then journalled, then sent, in that order |
| ContainerRunner.BuildRunner.RunPhase | app/factory/sandbox.py:404-531 | one phase performs exactly the steps of the protocol, whatever the daemon does, and ends clean or quarantined |
| ContainerRunner.BuildRunner.Run | app/factory/sandbox.py:186-303 | a run starts if and only if nothing of the workflow is journalled, quarantined or active and the lease is ready or active; it stops at the first phase that is refused, fails or cannot clean up, and is a run of the protocol |
| ContainerRunner.HastyRetryLeaks | app/factory/sandbox.py:168-184 | a run from a fresh world: crash after the create request, a retry that finds nothing, then the container appears, journalled nowhere, and a new run may start |
| Resume.JobInvocation | app/api/service.py:310-404 | the loop over matching gates decides as the specification: refuse, skip, continue, or answer exactly the unchanged gates |
| Resume.Compare | app/api/service.py:360-381 | gates shown again are sorted into unchanged and consumed; a count that went back refuses the job |
| ResumeProofs.DecisionsTakeEffectOnce | app/api/service.py:269-404 | under any schedule of decisions, crashes and redeliveries each position consumes at most one answer, and only one issued for that position and gate |
| ResumeProofs.AnsweredIffUnused | app/api/service.py:310-404 | a queued decision answers a gate if and only if it waits again in its task and checkpoint with its position unused; no job queued by a decision is refused |
| ResumeProofs.VerdictIsDecided | app/api/service.py:352-390 | in every reachable state a delivered job answers exactly its gates that wait again with their position unused, if any; else continues if one of its answers was persisted and its gate still waits, or the graph ran on and waits nowhere; else does nothing; it is never refused |
| ResumeProofs.InterruptedDeliveryContinues | app/api/service.py:364-387 | a worker that persisted some answers and died: redelivered, its job answers the gates left, or else continues; it is never dropped |
| ResumeProofs.RefusedIff | app/api/service.py:324-376 | any job whatever is refused if and only if its decision, gates or positions are malformed, nothing has started, or a gate waits again with fewer answers than when it was asked |
| ResumeProofs.OneAnswerEach | app/api/service.py:269-308 | a delivery raises by one the count of each task whose gate it answers and touches nothing else; only the graph moves to a new checkpoint |
| ResumeProofs.FreshDecisionIsTaken | app/api/service.py:875-915 | a decision delivered at once is taken by every gate it was shown |
| ResumeProofs.RedeliveryOnlyContinues | app/api/service.py:374-381 | a job all of whose positions were consumed continues if one of its gates still waits there or the graph ran on and waits nowhere, and else does nothing; it writes nothing |
| Ledger.NextFeature | app/infrastructure/product_delivery_store.py:25-26 | the first feature that is not merged |
| Ledger.Store.constructor | app/infrastructure/product_delivery_store.py:59-89 | a created plan starts at revision one with fresh rows |
| Ledger.Store.Next | app/infrastructure/product_delivery_store.py:25-26 | scanning the rows finds that feature |
| Ledger.Store.Append | app/infrastructure/product_delivery_store.py:106-130 | appending is refused on a stale revision, an active delivery or a limit, leaving the row untouched, and else adds the rows and decisions and a revision |
| Ledger.Store.Reserve | app/infrastructure/product_delivery_store.py:132-178 | reserving is refused on a stale revision, an active delivery, three attempts or a used id, and else opens one attempt on the next feature and records its context |
| Ledger.Store.UpdateAttempt | app/infrastructure/product_delivery_store.py:197-222 | a late or repeated report changes nothing; else only the last attempt of the next feature changes |
| Ledger.MergedOnlyWithReceipt | app/factory/product_delivery.py:207-270 | a reconciliation reports merged if and only if the workflow is ready for review with a green, identified delivery and a verified receipt, and then carries all of it |
| Ledger.ReportedAs | app/factory/product_delivery.py:207-270 | an attempt is reported failed or cancelled if and only if its workflow was read so; waiting for a person, in review, blocked, running or unknown each exactly in its case |
| LedgerProofs.StepKeeps | app/infrastructure/product_delivery_store.py:91-222 | every step of slow clients keeps the shape, and only moves history forward |
| LedgerProofs.AppendEffect | app/infrastructure/product_delivery_store.py:106-130 | appending succeeds if and only if the revision is current, no delivery is under way and both limits hold, else the first failing reason is given and nothing changes; it adds the features untouched and the decisions at the end |
| LedgerProofs.ReserveEffect | app/infrastructure/product_delivery_store.py:132-178 | reserving succeeds if and only if the revision seen is current, an open feature is not being delivered, has fewer than three attempts, and the workflow is new; it opens one attempt on that feature alone |
| LedgerProofs.UpdateEffect | app/infrastructure/product_delivery_store.py:197-222 | a report changes the plan if and only if its revision is current and it says something new of an attempt; then only that attempt's status and evidence |
| LedgerProofs.EveryReachablePlan | app/infrastructure/product_delivery_store.py:91-222 | under any interleaving of start, reconcile, recover and append: merged features, then at most one being delivered, then untouched ones; at most three attempts each, all but the last ended failed or cancelled; the limits hold |
| LedgerProofs.HistoryIsKept | app/infrastructure/product_delivery_store.py:91-222 | merged features and finished attempts never change, the number of merged features never drops, and every change raises the revision |
| LedgerProofs.ReportsLandWhereTheyWereRead | app/infrastructure/product_delivery_store.py:197-222 | a report changes the plan only if it is still exactly the plan its observer read, and then only that attempt: never a later one |
| LedgerProofs.ContextMatchesReservation | app/factory/product_delivery.py:75-136 | the context saved with an attempt was built from the very plan the attempt was reserved on |
| LedgerProofs.MergedFeaturesHaveReceipts | app/factory/product_delivery.py:28-56 | the capsule and the ancestor of the next delivery can always quote a receipt for each merged feature |
| LedgerProofs.FreshReserveIff | app/infrastructure/product_delivery_store.py:132-178 | an up-to-date reservation succeeds if and only if a feature is open, all its attempts ended, fewer than three, and the id is new |
| ToolLoop.Run | app/agents/tools.py:679-870 | whatever the model answers: at most max_tool_calls tools run, recovery reads included, at most one more completion than that is requested, the first request carries the recovery reads and their results, and it ends with the last completion or by refusing a provider that ignored the limit |
| ToolLoop.Explore | app/agents/tools.py:763-858 | the round loop halts with that discipline from any starting conversation |
| ToolLoop.Turn | app/agents/tools.py:786-853 | the next request extends the conversation by the calls and their answers and is final if and only if a limit is reached |
| ToolLoop.AnswerAll | app/agents/tools.py:786-836 | each call is answered once, in order; exactly the first ones within the limits are executed, with consecutive ordinals |
| ToolLoop.Refresh | app/agents/tools.py:709-741 | the recovery reads are the first few distinct paths, at most four and within the call limit, none if the ceiling is not positive |
| ToolLoop.DistinctListsOnce | app/agents/tools.py:712 | the distinct paths are exactly the given ones, each once |
| ToolLoop.OneMoreExchange | app/agents/tools.py:763-853 | a further admissible request keeps the whole log disciplined |
| ToolLoop.NextTo | app/agents/tools.py:763-853 | consecutive requests: the earlier was not final and was answered with calls; the later carries every call with its answer, the tools' own content and error flag for the calls within the limits, the refusal for the others |
| ToolLoop.OneRequestPastTheLimit | app/agents/tools.py:838-841 | once a limit is reached the next request is the last and is forced to be final |
| ToolLoop.ConversationGrows | app/agents/tools.py:842-853 | the conversation only grows, by exactly two messages a round; calls and tokens only add up |
| ToolLoop.TotalsAreSums | app/agents/tools.py:775-776 | reported tokens and cost are the sums over all completions requested |
| SearchReplace.ScanIsLeftmost | app/agents/tools.py:402-404 | the exact matches are, in order and without overlap, exactly the occurrences no earlier match hides |
| SearchReplace.ScanIsTheLeftmost | app/agents/tools.py:402-404 | and no other list has that property |
| SearchReplace.LineOffsets | app/agents/tools.py:342-346 | one offset per line, each the sum of the earlier lines and their line feeds |
| SearchReplace.LinesAt | app/agents/tools.py:342-369 | any run of lines is rebuilt from the text at its offsets and is bounded by line feeds or the ends of the text |
| SearchReplace.FindLineTolerantSpans | app/agents/tools.py:349-369 | the window loop finds the specified spans |
| SearchReplace.TolerantSpansIff | app/agents/tools.py:349-369 | a span is found if and only if it is a run of whole lines equal to the search lines up to the tolerated blanks, unless the search is blank |
| SearchReplace.NormalizedAlikeIff | app/agents/tools.py:354-357 | two lines compare equal if and only if they differ in trailing blanks alone, or in leading ones too where indentation is ignored |
| SearchReplace.BlankSearchIff | app/agents/tools.py:357-359 | nothing is searched for by lines if and only if the search text is blank |
| SearchReplace.DropFeedsStrips | app/agents/tools.py:357 | the search text loses exactly the line feeds around it |
| SearchReplace.TolerantSpansAreLines | app/agents/tools.py:349-369 | the text of a found span, split into lines and normalised, is the normalised search |
| EditFile.FirstIndent | app/agents/tools.py:372-376 | the white space before the first line with text, or nothing |
| EditFile.IndentOfTheFirst | app/agents/tools.py:372-376 | the indentation of a block is that of its first line with text, none without text |
| Text.StripEmptyIff | app/agents/tools.py:372-393 | a line is blank, as stripping it tests, if and only if all of it is white space |
| EditFile.ReindentReplacement | app/agents/tools.py:379-393 | the loop moves each line with text from the search's indentation to the one found |
| EditFile.ReindentKeepsText | app/agents/tools.py:379-393 | reindenting keeps the number of lines and every line's text after its indentation |
| EditFile.ReindentMoves | app/agents/tools.py:379-393 | a line with text that starts with the source indentation starts with the target one instead, the rest kept; every other line stays |
| EditFile.ReindentRoundTrip | app/agents/tools.py:379-393 | a block whose lines all carry the indentation can be moved and moved back unchanged |
| EditFile.LocatedWithin | app/agents/tools.py:396-431 | whatever is replaced lies in the text and is the search text, or whole lines equal to it up to blanks |
| EditFile.LocatePrefers | app/agents/tools.py:396-410 | exact occurrences are preferred; else, for several lines, whole lines equal up to trailing blanks; else up to indentation, which alone are reindented |
| EditFile.ApplyReplace | app/agents/tools.py:396-431 | the edit succeeds if and only if the requested occurrence exists, or is the only one, and then replaces exactly that span; else it says empty, not found, ambiguous or out of range |
| EditFile.UnnumberedEditIff | app/agents/tools.py:416-422 | where the text occurs exactly, an edit without number succeeds if and only if all occurrences begin inside the first |
| EditFile.OverlapGoesUnnoticed | app/agents/tools.py:402-422 | a text with two overlapping occurrences that is edited as if it had one |
| Inventory.TakeBatch | app/infrastructure/scm.py:698-710 | a batch is taken if and only if every item has an identity and none repeats |
| Inventory.Refutes | app/infrastructure/scm.py:671-725 | a page that neither goes on nor completes the list cannot be made good by later pages |
| Inventory.CheckInventory | app/infrastructure/scm.py:654-726 | within thirty requests the list is returned if and only if some number of pages is complete, and is then exactly what those pages held; a refusal names what the last page shows |
| Inventory.FixedListIff | app/infrastructure/scm.py:654-726 | against a server paging a fixed list of distinct items it is complete exactly below 3000 items, or at 3000 with a declared total, and then is that list |
| Inventory.Gather | app/infrastructure/scm.py:596-631 | the checks are every run and every status not published by this system |
| Inventory.FetchChecks | app/infrastructure/scm.py:588-652 | a commit is classified if and only if both inventories are complete; green if and only if there is a check and all finished and passed, red if and only if all finished and one did not pass |
| Inventory.VerdictOfItems | app/infrastructure/scm.py:596-652 | a verdict told from the items read: waiting if and only if a run is not completed or a foreign status pending; green if and only if there is something to judge, every run completed with success, neutral or skipped and every foreign status is a success; else red |
| Inventory.WaitForChecks | app/infrastructure/scm.py:758-787 | the wait ends at the first settled poll, within the polls the timeout allows, and reports green or red only as just read |

## Left out

- Publication without a pinned base: only its promise about the identical tree is modelled; the base ref is then read from the remote and any head is accepted.
- The regular expression on the pinned commit id, titles and bodies of pull requests, and the HTTP status behind a refused request.
- PublicationResults.RetryReturnsIff: the base branch does not move; the server refuses a pull request from a head that is an ancestor of the pinned base, and an open pull request always has its branch.
- PublicationResults.PinnedPublicationIsIdempotent: assumes nobody else pushes to the branch or closes the pull request; RefMovesOnlyForward covers foreign pushes.
- PublicationReports.ReturnedIsOpen: pull requests are numbered as they are listed; numbers shared with issues are not modelled.
- Path existence on the remote for directories: a deletion counts as present when the tree has that exact path.
- Transports, subprocesses, SQLite and LangGraph themselves: each request is a step that is delivered, lost after taking effect, or not received.
- Prompts, model outputs, judge scores, advisor text, Markdown reports, telemetry, authentication, and path, URL and command allow-lists.
- Planner answers other than dependencies: texts, criteria, complexity, and the consistency check of required paths.
- Tasks found still running when branches join, and blocked tasks: no modelled step produces them, so evaluating results makes no metered call and cannot block the budget.
- Task and workflow cancellation requests: a cancelled job ends the run like a failed one.
- WorkflowProofs.RunUntilHuman: counts steps of the graph, not wall-clock time inside a node.
- WorkflowProofs.DeliveryGateCannotFailOnTasks: the lease, destination, host, branch, previous-branch and criteria checks of app/factory/delivery.py:20-80 are one flag of the state.
- WorkflowProofs.StepKeepsInv: clocks only go forward, so an update is never older than the task it changes; elapsed times are free inputs.
- WorkflowProofs.GrantGivesHeadroom: tasks carry no budget of their own in the graph; Spending.RetriedTaskHasHeadroom covers that doubling.
- BudgetForest.StepKeeps: a budget is attached only to an older one, as nested scopes do; an arbitrary re-parenting could build a cycle.
- Spending.NeverOverspent: assumes, as the metering does, that no measured call exceeds its reservation and no agent reports more than was metered.
- WorkflowSpending.WorkflowNeverOverspends: assumes the same of every step, and does not see what a crashed job spent without recording it.
- Floating-point rounding of money: amounts are exact.
- Evidence.MergeWorkspaceEvidence: the operation history, the list of applied files and the order of lists are not part of the merged record.
- Evidence.MergedEvidenceComposes: rounds are well formed, that is, each describes a real change of the tree; malformed lists from old checkpoints are only merged, not interpreted.
- The order of published file lists: files are a map and deletions a set.
- Containers: the fields of the runner are those of a class, but the daemon's answers are arguments of its methods, and each lease transition is a step of its own because each is persisted before the next; git commands inside provisioning are not modelled.
- ContainerProofs.NoContainerLeaks: assumes one runner process, tokens that never repeat, and that an abandoned create request is over before a cleanup is retried.
- Two runs of one workflow at the same time: the per-workflow lock excludes them; a second run would quarantine the first one's container.
- Resume payloads of version 1 and plain strings, start jobs, and snapshots whose position cannot be read.
- ResumeProofs.DecisionsTakeEffectOnce: deliveries of one workflow are serialised by its lease, a task waits at one gate at a time, and a checkpoint keeps the answers already persisted.
- Ledger: product ownership, fingerprints of the plan, the saved work order and its digest, and the 48 KB limit of the capsule.
- ToolLoop.Run: tools and hooks are one oracle per execution; what hooks block and what the trace records is not modelled, nor an exception of the router.
- SearchReplace.ScanIsTheLeftmost: stands for the regular-expression library's scan of an escaped literal.
- White space beyond the control characters and spaces of Latin-1 in Python's strip.
- Inventory: the HTTP status and JSON types of a page are one unusable page; texts of failures, annotations and their paths are not modelled.
- Inventory.WaitForChecks: assumes each pause lasts at least the poll interval.

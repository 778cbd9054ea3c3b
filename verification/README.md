# Verification of the WALKOFF workflow engine

This project models WALKOFF's workflow engine in Dafny and proves properties of it. A workflow is a graph of
actions joined by branches. A worker walks the graph: it executes an action, examines the branches that leave it in
priority order, counts each examination in the accumulator, and follows the first branch whose status and condition
fit. A run can be stopped at an action boundary (pause, abort, a wait for trigger data) and taken up again from a
saved state by another worker. Around this interpreter sit the status tables driven by events, the request queue, the
registry of running workflows, the copying of workflows under new ids, parameter checking, schema conversion, the
shared accumulator store, the event routers and the message history.

## How the model is laid out

| file | part of the system |
|---|---|
| json.dfy, elements.dfy | JSON values; arguments, conditions, actions, branches, workflows; the world of app functions |
| parameters.dfy, passed_values.dfy | parameter checking; what each parameter is passed with |
| conditions.dfy, short_circuits.dfy | transforms, conditions and nested conditional expressions; where their evaluation stops |
| engine.dfy, strategy.dfy | a run as a function of state and control flags; the same as methods on contexts, branches and accumulators |
| branches.dfy, termination.dfy, validity.dfy | branch choice and counting; counter-guarded loops; what validation gives a run |
| raising.dfy | errors that go uncaught inside an action, and the status that makes a run return |
| simulation.dfy, references.dfy | one theorem on runs under a renaming of ids, used by pausing and by copying |
| pausing.dfy, limits.dfy, obedience.dfy | cut runs against uncut runs; exactly where pausing shows; which flags stop a run |
| regenerate.dfy, dumps.dfy, copying.dfy, plain_copies.dfy, stands_for.dfy, copied_runs.dfy | id regeneration on nested JSON; what it does to dumped workflows, and exactly to which; a dump stands for one workflow; runs of the copy |
| statuses.dfy, traces.dfy, row_results.dfy | status tables and callbacks; the language of event traces; what the rows say of a trace |
| reports.dfy | what a run announces and remembers, told from its events: results, judged branches, the accumulator |
| commands.dfy, protocol.dfy, safety.dfy, origins.dfy | the server's commands; server, queue and workers as a state machine; its invariants; which commands flags, messages and requests come from |
| late_starts.dfy, whole_system.dfy, end_to_end.dfy | the status check and the start event as two steps; the protocol with the engine and the event callbacks inside; what every execution has done over its legs |
| registry.dfy, prompt_control.dfy | the thread-keyed registry; pool threads and the communication thread interleaved |
| accumulators.dfy, schemas.dfy, dispatchers.dfy, messages.dfy | the shared store, schema conversion, event routers, message history |

App functions, leaf conditions, transforms, type conversions, JSON parsing and fresh ids are uninterpreted total
functions with explicit failure outcomes; among these are errors that the engine does not catch: a type conversion
that raises past its check, and a status that the API does not declare. A run is watched over a finite schedule: entry
k holds the control flags raised by the time of the run's k-th check. A run that is still going at the end of its
schedule is reported as running, so a statement over all schedules is one over all finite prefixes of all runs,
including endless ones.

## Where code and intent differ

The model follows the code. These departures from what the code sets out to do are modelled or stated:

- Waiting for a trigger returns an action result that is compared with a string; the comparison raises. The run does
  stop there, so the engine models it as a distinct outcome, and the registry model leaves the thread's entry behind
  (`PromptControl.StaleEntrySwallowsControl`, `PromptControl.StarvedForever`).
- The resume flag goes to every action, so a resumed run never waits for trigger data again
  (`Limits.ResumedNeverAwaits`, `Limits.PausingCanSkipTrigger`).
- A new context receives the user in the position of the resumed flag, so counters are entered as zero only without a
  user; branch counters restart at zero on load, and a resumed context applies the workflow's variables again
  (`Limits.ResumptionIsExact`, `Limits.NextCountSurvives`).
- When both flags are set pause wins and the abort is lost (`Obedience.FirstFlagsDecide`).
- Errors go uncaught. A device reference that does not resolve raises before the action is announced; a type
  conversion may raise in the check of an action's or a condition's arguments; and an action whose status its API does
  not declare raises after its result is written. The shipped app does return such a status
  (`Raising.InvalidInputLeavesExecuting`), a number referred to where an array is expected does raise
  (`Raising.NumberForArrayLeavesExecuting`), and an action that declares no statuses finishes only when its arguments
  are refused (`Raising.UndeclaredNeverFinishes`). Such a run sends nothing more and its execution stays running; if
  it raised inside the action, that action's status stays executing for good. The results on traces and records say
  exactly when, and `Raising.DeclaredIsSettled` and `EndToEnd.DeclaredEndToEnd` give the condition that rules it out.
- An action whose own status is the string "trigger" makes the strategy return: no branch is examined, nothing closes
  the run and the accumulator is not cleared (`Raising.AbandonedExactly`, `Raising.TriggerStatusAbandons`).
- The start callback sets running unconditionally. Safety is proved with a worker's status check and start event as
  one step; `LateStarts.AbortedIsLeftExactly` says exactly when two steps let an aborted execution run again.
- Saved state is inserted by primary key; it is modelled as a map update.
- Regenerating ids treats object values of arguments as elements (`Regenerate.PlainValuesSurvive` says exactly which
  values survive, `PlainCopies.CopiesExactly` which workflows), and copying fails for a reference to a branch or an
  environment variable (`Copying.CopyIsExact`).
- Callbacks for app actions may be yielded more than once (`Dispatchers.AppEventDispatcher.YieldsCount`); the
  generators' explicit end is taken as a normal end.

## Model

| member | source | states |
|---|---|---|
| Elements.ApplySelection | walkoff/executiondb/argument.py:117-134 | the selection loop reaches the value found by following the selectors one by one, and fails as soon as one of them does not fit its container |
| Elements.SelectFailsEarly | walkoff/executiondb/argument.py:117-126 | a selection that fails at some selector fails as a whole |
| Elements.SelectReaches | walkoff/executiondb/argument.py:117-134 | a selection gives a value iff its selectors lead there one after another: to the first field of that name, or to the item at that index, negative ones counted from the end |
| Elements.ArgumentReaches | walkoff/executiondb/argument.py:86-115 | the value of an argument, both ways: its own, or what its selection reaches from the referenced entry, or the bare reference while there is no accumulator |
| Parameters.ValidateOne | walkoff/appgateway/validator.py:380-411 | one turn of the check: what the parameter comes to, and that it joins the argument set by default exactly when no argument has its name and it did not fail |
| Parameters.BuildApiDict | walkoff/appgateway/validator.py:374-376 | the dictionary holds the last parameter of each name |
| Parameters.ValidateParameters | walkoff/appgateway/validator.py:373-419 | the loop with its seen, converted, error and argument sets agrees with a bookkeeping-free definition |
| Parameters.CheckIsExact | walkoff/appgateway/validator.py:373-419 | the check raises iff some parameter's conversion does; otherwise it succeeds iff every argument is named in the API and every API parameter converts, defaults or is optional; the result's keys are then all API names, minus unresolved references when there is no accumulator |
| PassedValues.ValuesArePassed | walkoff/appgateway/validator.py:373-419 | the check accepts with given values iff every argument is named in the API, the value under each name is the conversion of its first argument's value, or of the default, or the unconvertible default itself, or null when optional, and nothing else is passed; it raises iff one of these conversions does |
| Conditions.UpdateArgumentsWithData | walkoff/executiondb/condition.py:134-140 | the data takes the place of any argument of the data parameter's name and comes last; the others keep their order |
| Conditions.DataIsFound | walkoff/executiondb/condition.py:134-140 | under the data parameter's name the data is found, whatever argument was given for it, and under every other name what was given |
| Conditions.OthersKeepOrder | walkoff/executiondb/condition.py:134-140 | of two argument lists in a row the arguments kept are those kept of the first and then of the second; of one argument it is kept iff it has another name |
| Conditions.RunTransform | walkoff/executiondb/transform.py:82-114 | a transform that fails, by its arguments or in execution, returns its input unmodified with an error signal, otherwise its output; it raises iff the check of its arguments does |
| Conditions.RunTransforms | walkoff/executiondb/condition.py:107-110 | the pipeline hands each transform's output on, and its input when it fails |
| Conditions.TransformsInTurn | walkoff/executiondb/condition.py:107-110 | transforms in two groups: the second group works on the data that the first hands on, with the signals of both, unless the first has raised |
| Conditions.ExecuteCondition | walkoff/executiondb/condition.py:94-132 | a condition is false on invalid arguments or an execution error, negated or not, otherwise its verdict with negation; the data checked is what the pipeline of transforms hands on; it raises iff a check does |
| Conditions.ExecuteXor | walkoff/executiondb/conditionalexpression.py:104-114 | the xor loop stops at the second true part with false and otherwise returns whether one was found, with the parts visited in order |
| Conditions.EvalIsMeaning | walkoff/executiondb/conditionalexpression.py:70-114 | short-circuit evaluation of any tree, unless it raises, equals its order-free meaning: all true; some true or empty; exactly one true or empty; then negation |
| Conditions.EvalRaisesLast | walkoff/executiondb/conditionalexpression.py:70-114 | evaluation raises iff a condition it visits does, and that one is the last visited |
| Conditions.VisitsDecide | walkoff/executiondb/conditionalexpression.py:70-114 | another leaf valuation that agrees on the leaves visited gives the same result, visits and signals |
| ShortCircuits.StopsWhereSettled | walkoff/executiondb/conditionalexpression.py:70-114 | evaluation visits the parts, conditions first, up to the first that raises or settles the outcome (false in an and, true in an or, the second true in an xor), and no other; its verdict, signals and visits are told from the parts alone |
| ShortCircuits.RestCannotMatter | walkoff/executiondb/conditionalexpression.py:94-114 | two expressions whose parts agree up to the settling one evaluate alike, whatever follows it |
| Engine.Outgoing | walkoff/worker/workflow_exec_context.py:56-57 | the positions returned are exactly those of the branches that leave the action |
| Branches.OutgoingInOrder | walkoff/worker/workflow_exec_context.py:56-57 | they come in stable (priority, list position) order |
| Branches.ChoosesFirst | walkoff/worker/workflow_exec_strategy.py:91-121 | the choice is the first takeable branch, each judged on the accumulator as the branches before it and its own count leave it; exactly those up to the chosen one, or up to one whose condition raises, are counted |
| Branches.RunRecordsExaminations | walkoff/executiondb/branch.py:73-87 | over a whole run each examined branch's entry is the number of its examinations since its counter was loaded, and no other branch's entry changes |
| Reports.BranchesAreJudged | walkoff/executiondb/branch.py:59-87 | at every action of every run the branches examined are judged in order on the result that the action's event carries and on the accumulator with their own counts; the first that follows is taken, the others of the status are announced as not taken, and the run goes on to the destination, fails or shuts down accordingly |
| Strategy.Branch.Execute | walkoff/executiondb/branch.py:59-87 | the counter and the entry rise before the branch is judged; the destination is returned iff the status matches and there is no condition or it holds of the current action's result beside the accumulator with the new count; an error raised by the condition goes on to the caller |
| Strategy.Branch.constructor | walkoff/executiondb/branch.py:51-54 | a loaded branch counts from zero |
| Strategy.WorkflowExecutionContext.constructor | walkoff/worker/workflow_exec_context.py:16-76 | a context has every branch of its workflow, distinct objects with counters at zero, and an accumulator with the workflow's variables over what is stored, and zero entries unless resumed |
| Strategy.WorkflowExecutionContext.ExecuteStrategy | walkoff/worker/workflow_exec_strategy.py:20-40 | run-specific variables override what is there, the start is announced once, and the loop runs from the given action |
| Strategy.RunNew | walkoff/worker/workflow_exec_strategy.py:155-157 | a new execution of the objects is the engine's execution from its starting state, with the user in the resumed position |
| Strategy.RunResumed | walkoff/worker/workflow_exec_strategy.py:159-169 | a resumed execution of the objects is the engine's execution from the resumed state |
| Strategy.WorkflowExecutionContext.GetBranch | walkoff/worker/workflow_exec_strategy.py:91-121 | the loop over branches makes the engine's choice, leaves its counts in the objects and sends its events; its lookup of the last action's result never misses |
| Strategy.WorkflowExecutionContext.ExecuteAction | walkoff/executiondb/action.py:118-181 | events, trigger, argument failure, accumulator write and uncaught errors of one action, as the engine's step has them: an undeclared status raises after the write, a check that raises before it; a result is announced as an error iff its status is declared a failure |
| Strategy.WorkflowExecutionContext.Proceed | walkoff/worker/workflow_exec_strategy.py:60-77 | an executed action's result is in the accumulator before its branches are examined, and the next action is the chosen branch's destination; the status "trigger" ends the run before them |
| Strategy.WorkflowExecutionContext.Turn | walkoff/worker/workflow_exec_strategy.py:44-77 | the flags are checked at the boundary, pause before abort, and the one obeyed is reset |
| Strategy.WorkflowExecutionContext.Close | walkoff/worker/workflow_exec_context.py:78-84 | the shutdown event carries the accumulator, which is then cleared |
| Strategy.WorkflowExecutionContext.DoExecute | walkoff/worker/workflow_exec_strategy.py:42-77 | the loop that updates context, branches and accumulator in place is the engine's run: same events, same outcome, same final cells, for every schedule of flags, returning on the status "trigger" and on errors |
| Reports.EventsAreReported | walkoff/executiondb/action.py:118-181 | every event of every run that names an action is accounted for by the action the run stood before: its id, its number, the device and checked arguments it was called with, the result returned, its own or the default status, and what the API declares of that |
| Reports.RunsAnnounceAll | walkoff/executiondb/action.py:118-181 | at every action a run comes to: nothing is announced iff the device does not resolve; otherwise the start, then the wait iff there is a trigger and no resume, and otherwise a result unless the check raises or the status is undeclared; with the outcome of each |
| Reports.ResultsAreClassified | walkoff/executiondb/action.py:175-180 | in every run a result is announced as an error iff the API declares its status a failure, and as a success iff it declares it none |
| Reports.AccumulatorHoldsResults | walkoff/worker/workflow_exec_strategy.py:79-88 | at the end of every run each entry but the branches' counts is the last result announced for it, or what it was before; only an action that raised inside may have left an unannounced one |
| Reports.CompletedIsCleared | walkoff/worker/workflow_exec_context.py:78-84 | a run that completes ends with its shutdown and an empty accumulator |
| Reports.StartsWith | walkoff/worker/workflow_exec_context.py:16-76 | each entry a new and a resumed execution start from: run variables over zeroes, those only without a user, over the workflow's variables; and the workflow's variables over what was stored |
| Raising.NoRunRaisesExactly | walkoff/executiondb/action.py:118-181 | in a world no run of any workflow raises inside an action iff no single action does, from any accumulator |
| Raising.DeclaredIsSettled | walkoff/appgateway/apiutil.py:54-80 | if no check raises and every returned or default status is declared, no run raises inside an action and after any number of legs no action status is left executing |
| Raising.UndeclaredNeverFinishes | data/walkoff_schema.json:355-358 | an action without declared statuses finishes iff its device resolves, it does not wait and its arguments are refused |
| Raising.AbandonedExactly | walkoff/worker/workflow_exec_strategy.py:74-77 | a run is abandoned iff some result event has the status "trigger"; that event is the last of the trace, and its result stays in the accumulator |
| Raising.InvalidInputLeavesExecuting | apps/Walkoff/app.py:150-156 | with a timeout of one second the shipped action's run ends after its start with its row executing and its execution running |
| Raising.NumberForArrayLeavesExecuting | walkoff/appgateway/validator.py:338-353 | a number referred to by an array parameter ends the run after the action's start |
| Raising.TriggerStatusAbandons | walkoff/worker/workflow_exec_strategy.py:69-77 | a concrete run that returns on the status "trigger" with its accumulator kept |
| Simulation.RunsAreRelated | walkoff/worker/workflow_exec_strategy.py:42-121 | related states of workflows related by an injective renaming have related runs, whatever flags are raised |
| Simulation.EvalSim | walkoff/executiondb/conditionalexpression.py:70-114 | conditions over renamed references on renamed accumulators have the same verdict |
| Simulation.CheckSim | walkoff/appgateway/validator.py:373-419 | parameter checking is unchanged under a renaming of references and entries |
| References.WorkflowUnchanged | walkoff/executiondb/argument.py:86-115 | a workflow that reads no branch counter is related to itself with the counters hidden |
| Pausing.RunConcat | walkoff/worker/workflow_exec_strategy.py:42-77 | a run over two schedules in a row is the first run continued from where it stands |
| Pausing.PausingIsTransparent | walkoff/worker/workflow_exec_strategy.py:42-88 | cutting a run by any number of pauses and resumes keeps the action events in order, each action once with its result, the branches examined, the outcome, and the accumulator at the end apart from branch counters; for a run that completes that is the one its shutdown event carries |
| Pausing.ExecutionSurvivesPauses | walkoff/multiprocessedexecutor/multiprocessedexecutor.py:225-237 | the same from the start of an execution, for trigger-free workflows that read no branch counter and whose variables are not overridden |
| Obedience.FirstFlagsDecide | walkoff/worker/workflow_exec_strategy.py:44-58 | a run is paused iff it is still going at the first flags raised and pause is among them, and aborted iff only abort is; it stops where it stood, and later flags do not matter |
| Limits.ResumptionIsExact | walkoff/worker/workflow_exec_context.py:71-76 | the resumed context is the paused one iff no branch had been counted, the workflow's variables still hold and no start arguments were pending |
| Limits.NextCountSurvives | walkoff/executiondb/branch.py:51-54 | the next count a condition reads is the same after a resume iff the branch had never been examined |
| Limits.ResumeSkipsTrigger | walkoff/executiondb/action.py:146-149 | resuming changes what an action does iff it has a trigger and a device that resolves |
| Limits.ResumedNeverAwaits | walkoff/worker/workflow_exec_strategy.py:60-67 | no resumed run ever waits for trigger data |
| Limits.PausingCanSkipTrigger | walkoff/worker/workflow_exec_strategy.py:60-67 | a concrete workflow that waits when uncut and completes when paused and resumed before its trigger |
| Termination.RunIsBounded | walkoff/worker/workflow_exec_strategy.py:79-121 | the actions still to be started are bounded by the remaining guard budget and the walk so far |
| Termination.GuardedLoopsEnd | walkoff/executiondb/branch.py:73-87 | if the graph without counter-guarded branches is acyclic, every uninterrupted run from fresh counters ends after at most (sum of bounds + 1) * (number of actions) started actions |
| Termination.CutLoopsEnd | walkoff/executiondb/branch.py:51-54 | a run cut into legs starts at most that many actions times its legs, and its last leg ends |
| Regenerate.PlainValuesSurvive | walkoff/helpers.py:199-219 | a value comes through id regeneration unchanged, with no id drawn, iff it is neither an object nor a list that directly holds one |
| Regenerate.ObjectValueIsChanged | walkoff/helpers.py:199-213 | the empty object given as a value comes out with an id in it |
| PlainCopies.UnchangedExactlyWhenPlain | walkoff/helpers.py:199-219 | a value that holds no id still to be drawn comes through unchanged iff it is neither an object nor a list that directly holds one |
| Dumps.ArgCopied | walkoff/helpers.py:199-213 | an argument's dump loses no field, gains no id and has its reference renamed; it fails iff the reference names no action |
| Dumps.ConditionCopied | walkoff/helpers.py:199-219 | regenerating a dumped condition gives the dump of a condition that differs in ids and references only |
| Dumps.ExpressionCopied | walkoff/helpers.py:199-219 | the same for conditional expressions of any depth, failing iff some reference inside names no action |
| Dumps.ActionCopied | walkoff/helpers.py:188-189 | an action keeps the id it was given, while everything nested in it is regenerated |
| Dumps.EdgeCopied | walkoff/helpers.py:191-194 | a branch gets a fresh id and its condition is regenerated |
| Copying.RenameLoop | walkoff/helpers.py:181-186 | the loop gives each action a fresh id and maps old ids to new |
| Copying.ActionLoop | walkoff/helpers.py:188-189 | the loop regenerates every action or fails at the first that cannot be |
| Copying.BranchLoop | walkoff/helpers.py:191-194 | the loop maps both ends of every branch and regenerates it, or fails at the first that cannot be |
| Copying.RegenerateWorkflowIds | walkoff/helpers.py:179-196 | the whole routine agrees with its specification, failing on an unknown start, end or reference |
| Copying.CopyIsExact | walkoff/server/endpoints/playbooks.py:359-364 | regenerating a dumped workflow gives the dump of its copy, and fails iff some reference, branch end or the start names no action |
| PlainCopies.CopiesExactly | walkoff/server/endpoints/playbooks.py:359-364 | regenerating a dumped workflow gives the dump of its copy iff the workflow is closed and its argument values are plain |
| StandsFor.DumpIsInjective | walkoff/server/endpoints/playbooks.py:359-379 | no two workflows have the same dump, so the JSON stands for exactly one |
| CopiedRuns.CopySim | walkoff/helpers.py:179-219 | with distinct action ids and an injective supply, the copy is related to the original by an injective renaming that keeps the ids of variables |
| CopiedRuns.CopyRunsAlike | walkoff/worker/workflow_exec_strategy.py:42-121 | every run of the copy from the renamed start is the original's under the renaming: results, statuses, branches taken, outcome, and the entries of actions and variables at the end |
| CopiedRuns.AlikeExactly | walkoff/executiondb/argument.py:95-106 | in all worlds and under all schedules the copy's runs are like the original's iff the starting accumulator is not empty, or the start action waits for a trigger or has no device reference that the renaming changes |
| CopiedRuns.CopyingPreservesMeaning | walkoff/server/endpoints/playbooks.py:347-392 | copying through JSON succeeds, and the only workflow that the result is the dump of runs as the original does |
| CopiedRuns.DeviceSeenThroughEmptyAccumulator | walkoff/executiondb/argument.py:95-106 | from an empty accumulator the copy of an action resolves to another device iff the device is a reference that the renaming changes |
| Statuses.ResultsTables.WorkflowPending | walkoff/server/workflowresults.py:12-23 | a known execution goes back to pending, a new one gets a row, saved states stay |
| Statuses.ResultsTables.SetRow | walkoff/server/workflowresults.py:116-152 | the latest row of an action execution gets the status and no other row changes |
| Statuses.ResultsTables.Handle | walkoff/server/workflowresults.py:26-152 | each event does to its own execution's record what the callbacks and the saving of state do, and nothing to any other |
| Statuses.ResultsTables.HandleAll | walkoff/multiprocessedexecutor/zmq_senders.py:55-78 | delivering a run's events in order folds them over the record |
| RowResults.RowsTell | walkoff/server/workflowresults.py:54-152 | over the whole trace of a leg: earlier rows stay, but for a waiting last one aborted with the execution; each event with a result has exactly one row of its action execution, saying success, failure or awaiting as the event does |
| RowResults.OneRowPerExecution | walkoff/server/workflowresults.py:96-113 | whatever events come in whatever order, no two rows are of one action execution, rows keep their places and actions, and those with a row are those that had one or were started |
| Reports.RowsFollowTheApi | walkoff/server/workflowresults.py:116-152 | the row of every action that a run finished says failure iff the API declares its status one, and success otherwise |
| Traces.TracesAreLegal | walkoff/worker/workflow_exec_strategy.py:35-77 | every trace is one start, then actions each started and finished before the next, then one closing event that tells the outcome; none for a run that was abandoned or failed, whose last action is left open iff the error was inside it |
| Traces.ApplyAllMatches | walkoff/executiondb/workflowresults.py:43-72 | folding any legal trace keeps the record in step with it: status, last action row, saved state |
| Traces.ExecutionsAreRecorded | walkoff/server/workflowresults.py:26-152 | after any number of legs the workflow status is the last leg's outcome, saved state is there exactly for a paused or waiting one, and an action status is left executing iff the last leg raised inside that action: then exactly the last one is |
| Traces.OnlyLastExecutes | walkoff/executiondb/workflowresults.py:43-72 | in the middle of a leg at most the last action status is executing |
| Commands.MultiprocessedExecutor.ExecuteWorkflow | walkoff/multiprocessedexecutor/multiprocessedexecutor.py:140-184 | an unknown workflow changes nothing; otherwise the execution is pending and one request for it is pushed left |
| Commands.MultiprocessedExecutor.AddWorkflowToQueue | walkoff/multiprocessedexecutor/multiprocessedexecutor.py:186-191 | the new request is the leftmost, the others keep their order |
| Commands.MultiprocessedExecutor.PauseWorkflow | walkoff/multiprocessedexecutor/multiprocessedexecutor.py:193-209 | a pause message, and nothing else, is sent iff the execution is running |
| Commands.MultiprocessedExecutor.ResumeWorkflow | walkoff/multiprocessedexecutor/multiprocessedexecutor.py:211-240 | only a paused execution is queued again, by one resuming request from its saved action, or the workflow's start if there is none |
| Commands.MultiprocessedExecutor.AbortWorkflow | walkoff/multiprocessedexecutor/multiprocessedexecutor.py:242-273 | a stopped or pending execution is aborted at once with its saved state removed, a running one by an abort message, a finished one not at all; no other execution changes |
| Commands.MultiprocessedExecutor.ResumeTriggerStep | walkoff/multiprocessedexecutor/multiprocessedexecutor.py:275-322 | a waiting execution is queued again from its saved action iff its trigger holds |
| Safety.ProtocolSafety | walkoff/multiprocessedexecutor/multiprocessedexecutor.py:193-322 | in every reachable state an execution has at most one request queued, accepted or running, and is running iff exactly one run of it is live or one ended without a closing event |
| Safety.FinishedForGood | walkoff/server/workflowresults.py:54-93 | completed and aborted are never left, whatever happens afterwards |
| Safety.SavedStates | walkoff/multiprocessedexecutor/zmq_senders.py:66-69 | a paused or waiting execution's saved state names the action it stopped at; a completed or aborted one has none |
| Safety.ResumesWhereStopped | walkoff/multiprocessedexecutor/multiprocessedexecutor.py:225-237 | a worker that takes up a resuming request finds the saved state unless the execution was aborted, and starts where the last run stopped |
| Safety.RequestsAreConserved | walkoff/worker/zmq_workflow_receivers.py:145-185 | requests are taken in push order, each by one worker, and the pushed ones are with multiplicity those queued, accepted, running, and finished or dropped |
| Origins.OnlyCommandsAbort | walkoff/multiprocessedexecutor/multiprocessedexecutor.py:242-273 | over all step sequences an execution that no command aborts is never aborted, has no abort message, and no live run of it is flagged to abort |
| Origins.OnlyCommandsPause | walkoff/multiprocessedexecutor/multiprocessedexecutor.py:193-209 | the same of pausing |
| Origins.CommandsArrive | walkoff/worker/worker.py:125-135 | in every reachable state a command to pause or abort an execution with a live run, once delivered, raises that flag of the run and changes nothing else of any run |
| Origins.FlaggedStandsStill | walkoff/worker/workflow_exec_strategy.py:44-58 | from every reachable state, whatever the step, a run that is flagged stays at its action with its flags until it ends, and one flagged to pause does not end aborted |
| Origins.RequestsComeFromCommands | walkoff/multiprocessedexecutor/multiprocessedexecutor.py:140-240 | in every reachable state the first request pushed for an execution is what a command to execute it asked for; every later one resumes |
| Origins.OnlyValidRun | walkoff/worker/workflow_exec_strategy.py:191-195 | no run of a workflow that is unknown or not valid is ever live |
| LateStarts.AbortedIsLeftExactly | walkoff/worker/workflow_exec_strategy.py:185-209 | with the status check and the start event as two steps, an aborted execution is set running again iff an abort of it falls between the check and the start of one of its requests, over all step sequences |
| LateStarts.LateStartRevives | walkoff/server/workflowresults.py:26-32 | a reachable run of that system in which it happens |
| Safety.EndingIsDelivery | walkoff/worker/workflow_exec_strategy.py:48-77 | the protocol's ending of a run agrees with delivering the engine's events on status and saved state |
| WholeSystem.WholeIsTied | walkoff/worker/workflow_exec_strategy.py:171-217 | with the engine's state in every live run and the tables written by events alone, every reachable state projects to a reachable state of the protocol, its runs stand at the actions the protocol has, and its records have the protocol's statuses and saved states |
| WholeSystem.WholeIsFaithful | walkoff/server/workflowresults.py:12-152 | for every execution in every reachable state: its record has its status and saved state, a live run of it can take its turn, and no action status is executing between turns, except exactly the last one of an execution whose run raised inside that action |
| EndToEnd.WatchedIsChronicled | walkoff/multiprocessedexecutor/multiprocessedexecutor.py:211-240 | in every reachable state what an execution has done over its legs is a run cut by pauses, and it ends where the live run or the saved state and the stored accumulator are |
| EndToEnd.TransparentEndToEnd | walkoff/multiprocessedexecutor/multiprocessedexecutor.py:193-240 | under any interleaving of commands, pauses and resumes an execution has done what one uninterrupted run does: same action events once each, same branches examined, same accumulator apart from branch counters |
| EndToEnd.BegunIsKept | walkoff/worker/workflow_exec_strategy.py:31-33 | a request without arguments whose variables override none of the workflow's begins in a state to which transparency applies |
| EndToEnd.BoundedEndToEnd | walkoff/executiondb/branch.py:51-54 | in every reachable state an execution with counter-guarded loops has started at most the bound of one leg times its legs |
| EndToEnd.DeclaredEndToEnd | walkoff/appgateway/apiutil.py:54-80 | if no check raises and every status is declared, no row is executing between turns in any reachable state |
| EndToEnd.RecordsFollowCommands | walkoff/server/workflowresults.py:54-93 | in every reachable state an execution recorded as aborted was the subject of a command to abort it, and one recorded as paused of a command to pause it |
| Registry.WorkflowExecutor.Register | walkoff/worker/workflow_exec_strategy.py:208-209 | a thread's entry is replaced in place, or appended |
| Registry.WorkflowExecutor.Unregister | walkoff/worker/workflow_exec_strategy.py:216-217 | only the thread's own entry goes, the order of the others stays |
| Registry.WorkflowExecutor.GetWorkflowByExecutionId | walkoff/worker/workflow_exec_strategy.py:226-231 | the first context of the execution in the registry's order |
| Registry.WorkflowExecutor.Pause | walkoff/worker/workflow_exec_strategy.py:142-145 | the pause flag of the execution's first context rises and no other flag of any context changes |
| Registry.WorkflowExecutor.Abort | walkoff/worker/workflow_exec_strategy.py:147-153 | the abort flag of the execution's first context rises and no other flag of any context changes |
| Registry.FirstIs | walkoff/worker/workflow_exec_strategy.py:226-231 | the lookup returns an entry's context iff no entry before it is of the same execution |
| PromptControl.RegistryIsBounded | walkoff/worker/workflow_exec_strategy.py:208-217 | under every interleaving the registry holds no more entries than there are pool threads, each set by its own thread |
| PromptControl.ControlIsPrompt | walkoff/worker/workflow_exec_strategy.py:44-67 | once a flag of a run is set, at most one more of its actions starts, and none unless its thread was already past the check |
| PromptControl.OnlyItsOwnExecution | walkoff/worker/worker.py:125-135 | a run is flagged only if its own execution was asked for |
| PromptControl.ControlArrives | walkoff/worker/workflow_exec_strategy.py:142-153 | a message flags a live run iff no entry before its own is of the same execution (or it was flagged already) |
| PromptControl.TakenExactly | walkoff/worker/worker.py:115-123 | in every reachable state a request is taken iff some pool thread has no entry |
| PromptControl.StaleEntrySwallowsControl | walkoff/worker/workflow_exec_strategy.py:208-217 | an entry left behind by a run that raised takes the abort meant for the execution's next run |
| PromptControl.StarvedForever | walkoff/worker/worker.py:115-123 | once every thread has left an entry behind, the worker never takes another request |
| Validity.ValidExactly | walkoff/executiondb/validatable.py:4-17 | the recursive check passes iff no element at any depth has errors |
| Validity.Validate | walkoff/executiondb/workflow.py:50-64 | no errors are collected iff the start and every branch end are listed actions; valid iff moreover every element is |
| Validity.RunsAreWalks | walkoff/worker/workflow_exec_strategy.py:79-121 | every run of every workflow executes only listed actions, joined by branches of the status just returned, and ends while heading somewhere only for want of that action |
| Validity.ValidRunsAreSafe | walkoff/executiondb/workflow.py:50-72 | in a workflow that passes the check every branch taken leads to a listed action, which comes next unless the run is stopped first; a run shuts down only after an action none of whose branches was taken |
| Accumulators.OwnViewIsMap | walkoff/appgateway/accumulators.py:31-101 | every operation replies and changes the accumulator's view as on a map |
| Accumulators.OtherViewsStay | walkoff/appgateway/accumulators.py:57-76 | no operation on one accumulator shows in an independent one |
| Accumulators.IndependentExactly | walkoff/appgateway/accumulators.py:57-60 | that holds iff neither key prefix extends the other |
| Accumulators.SeparatorFreeIsIndependent | walkoff/appgateway/accumulators.py:21-60 | distinct execution ids without the separator have prefixes that do not extend each other |
| Accumulators.StoreRefinesMaps | walkoff/appgateway/accumulators.py:31-101 | any sequence of operations on many accumulators sharing a store gets the replies and contents of independent maps |
| Accumulators.ExternallyCachedAccumulator.Assign | walkoff/appgateway/accumulators.py:31-33 | the store changes at the formatted key only, and the accumulator gains that entry |
| Accumulators.ExternallyCachedAccumulator.Get | walkoff/appgateway/accumulators.py:35-39 | the value under the formatted key, or a key error |
| Accumulators.ExternallyCachedAccumulator.Delete | walkoff/appgateway/accumulators.py:44-49 | the key goes, or a key error and nothing changes |
| Accumulators.ExternallyCachedAccumulator.PopItem | walkoff/appgateway/accumulators.py:87-98 | the value goes and is returned, or the default, or a key error |
| Accumulators.ExternallyCachedAccumulator.UpdateAll | walkoff/appgateway/accumulators.py:69-76 | all items are set: the accumulator holds the last item of each key, and its other entries stay |
| Accumulators.ExternallyCachedAccumulator.ClearAll | walkoff/appgateway/accumulators.py:62-64 | deleting key by key removes exactly the accumulator's own keys and leaves it empty |
| Schemas.OutputConforms | walkoff/appgateway/validator.py:47-115 | whatever a conversion returns has the shape the schema asks for |
| Schemas.ConversionIsIdempotent | walkoff/appgateway/validator.py:94-115 | converting a result again returns it unchanged, and a value is a fixed point iff it has the schema's shape |
| Schemas.EntriesConvert | walkoff/appgateway/validator.py:83-91 | an object's fields convert iff each is a property of the schema and its value converts; the result has the same keys in order, each with its own value's conversion |
| Schemas.ItemsConvert | walkoff/appgateway/validator.py:43-63 | items convert to given values iff there are as many and each is the conversion of the item in its place |
| Schemas.ItemsFail | walkoff/appgateway/validator.py:43-63 | items are refused for a reason iff that is the reason of the first that does not convert |
| Schemas.ArraysConvert | walkoff/appgateway/validator.py:43-63 | a value converts to an array iff the item schema has a type and each thing it iterates over converts, a list by its items, a string by its characters, an object by its keys; to as many items in the same places |
| Schemas.ObjectsConvert | walkoff/appgateway/validator.py:66-91 | a value converts to an object iff it is one, or text that parses to one, each of whose fields is a property and converts; the keys and their order stay, and without properties the object is taken as it is |
| Dispatchers.EventDispatcher.RegisterEvents | interfaces/dispatchers.py:296-324 | the nested router stays in step with the log of registrations |
| Dispatchers.EventDispatcher.GetCallbacks | interfaces/dispatchers.py:356-372 | a callback is called, once, iff some registration for the event used all, the sender's id or its name |
| Dispatchers.EventDispatcher.IsRegistered | interfaces/dispatchers.py:378-389 | the nested lookup accepts exactly what the log has for the entry and the event |
| Dispatchers.AppEventDispatcher.ValidateAppActions | interfaces/dispatchers.py:240-267 | unknown apps and actions are refused, all means every known action |
| Dispatchers.AppEventDispatcher.RegisterAppActions | interfaces/dispatchers.py:197-222 | a valid registration is logged and routed for every action, event and device of it; an invalid one changes nothing |
| Dispatchers.AppEventDispatcher.YieldsExactly | interfaces/dispatchers.py:147-184 | the callbacks yielded are those registered, which are those the log has for every device or for this one |
| Dispatchers.AppEventDispatcher.YieldsCount | interfaces/dispatchers.py:147-163 | a callback is yielded once per device key and reference strength it is registered under |
| Messages.MessageRow.UserHasRead | walkoff/serverdb/message.py:89-106 | the backward scan finds the latest read or unread entry of the user |
| Messages.MessageRow.IsResponded | walkoff/serverdb/message.py:133-146 | true iff a response is required and some entry is one |
| Messages.MessageRow.RecordUserAction | walkoff/serverdb/message.py:74-87 | the new state of recipients and history |
| Messages.HistoriesAreOrderly | walkoff/serverdb/message.py:74-87 | over any run of actions with distinct recipients: at most one response and none that is not required, nothing by a user after their delete, every unread after a read with no unread between |
| Messages.RecordedExactly | walkoff/serverdb/message.py:74-87 | over any run of actions on any recipients: an action is appended iff its user was listed more often than they deleted, an unread comes after a read with no unread between, and a response is required and the first; otherwise nothing changes |
| Messages.RecipientsLeft | walkoff/serverdb/message.py:82-87 | a user is left as a recipient as often as they were listed, less their deletes |
| Messages.SilentExactlyWhenDistinct | walkoff/serverdb/message.py:74-87 | users stay silent after their delete in every run of actions iff the recipients are distinct |
| Messages.ScanIsFold | walkoff/serverdb/message.py:89-106 | the backward scan equals following the read state forward, on every history |

## Left out

- Copying.RegenerateWorkflowIds: works on values, where the code changes nested dictionaries in place; a sub-object
  shared by two fields would be regenerated twice by the code and is not modelled.
- Copying.CopyIsExact: requires plain argument values, which PlainCopies.CopiesExactly shows to be needed, and no empty
  reference id; dumped fields that no run reads (names, positions, errors) are not modelled.
- PlainCopies.CopiesExactly: requires that no value already holds an id still to be drawn, and no empty reference id.
- CopiedRuns.CopyRunsAlike: requires that variables are under ids of no action, old or new; what it requires of the
  start action's device when the run starts from an empty accumulator is exact (CopiedRuns.AlikeExactly).
- Pausing.PausingIsTransparent: assumes that a paused run is resumed from what was saved, with no start arguments;
  EndToEnd.WatchedIsChronicled proves the first of every reachable state.
- EndToEnd.TransparentEndToEnd: speaks of the legs since the execution was started, or was last taken up after a wait
  or with new arguments, and requires of the state these began with that it has no start arguments.
- Safety.ProtocolSafety: assumes that a worker's status check and start are one step and that events are applied as
  they are emitted; a run that raised or was abandoned leaves its execution running for good.
- Safety.EndingIsDelivery: takes it that the protocol's run stands where the engine's does; WholeSystem.WholeIsTied
  proves that of every reachable state.
- Safety.RequestsAreConserved: requests carry a ticket as the identity of the message; decryption and decoding
  failures of messages are not modelled.
- Accumulators.StoreRefinesMaps: assumes execution ids without pattern or format characters; listing yields the
  store's full keys in the code and is not modelled beyond length and clearing.
- Dispatchers.AppEventDispatcher.RegisterAppActions: the dispatchers and containers below the router are values, never
  shared; weak references are kept alive.
- Validity.Validate: the errors of actions, arguments, conditions and transforms are given with their elements; how
  each computes its own is not modelled.
- The start arguments, variables and user that a request message carries, beyond the start and the resume flag.
- Deleting the rows of finished executions, and workflows deleted while an execution of them exists.
- The remote execution strategy, app instances, the Falcon runtime, sockets, encryption and message encoding.
- Event delivery between worker and server beyond the stated atomic steps.
- The scheduler, metrics, JSON forms of statuses and messages, authorization, REST endpoints and the client.
- Validation of schemas themselves, regular expressions and number formats.

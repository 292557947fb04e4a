# Kitchen scheduling engine: model and proofs

This project models the scheduling engine of a kitchen backend and proves what its documentation
promises. Orders are expanded into tasks with dependencies; tasks that wait for nothing go into a
ready queue; allocators give them a staff member, a counter slot and a machine slot; started tasks
complete, give everything back and unlock their dependents; an outbox delivers the events.

## Structure

- `model.dfy`, `transactions.dfy` hold the tables and what each repository statement and each
  transaction does to them, clamps included; `staff_metrics.dfy`, `ready_order.dfy`,
  `task_keys.dfy`, `graphs.dfy`, `sorting.dfy` and `collections.dfy` hold what they build on.
- `repository.dfy`, `ready_queue.dfy`, `kitchen_service.dfy`, `outbox.dfy`, `dependency_analyzer.dfy`
  and `order_expansion.dfy` hold the imperative code in its own form: a repository class, the queue
  class, the service class, the dispatcher class and the loops of the graph compiler. Their
  contracts say what a call means twice: as a function that the other proofs go on with
  (`service_effects.dfy`), and in the columns of the rows, with the numbers written out.
- `machine.dfy` is the engine as a transition system. A transaction is one step, except that a
  completion is split where it enqueues children before it commits, and that ConfirmOrder is split
  at each of its commits. Any number of processes are at work, in any interleaving.
  `service_runs.dfy` shows that every call of the service is a sequence of such steps.
- `resource_accounting.dfy`, `dependency_gate.dfy`, `ready_flow.dfy`, `event_log.dfy` and
  `order_lifecycle.dfy` are the parts of the invariant; `kitchen_theorems.dfy` puts them together
  and states the main results about every reachable state.
- `progress.dfy`, `order_graph.dfy`, `order_completion.dfy` and `completion_requests.dfy` build on
  them: which orders can be finished, why acyclic recipes decide that, and why repeated completion
  requests are harmless. `stale_ids.dfy` tells how the queue can be full of finished tasks.
- `assign_race.dfy`, `staff_limit.dfy` and `order_rollup.dfy` look inside two transactions under Read
  Committed, where two promises do not hold as written, and say exactly when they do.
  `forgotten_order.dfy` builds a kitchen in which the second of them fails.

## Where the code does less than its documentation says

- "Below max parallel" (README.md:54 of the repository) is checked on a staff row that is read
  without a lock; the row that is locked afterwards is discarded. From empty tables, racing
  allocators can give a person more than `max_parallel` tasks only if that person can be on duty,
  can work at two or more counters (with a slot, a machine that is up, and the skill), and these
  counters together have room for `max_parallel + 1` tasks. If any eligible person may be picked
  this is exactly when they can (`StaffLimit.LimitKeptIff`). With the pick by least score it is
  exactly when they can for everybody who at some moment is not outdone by a competitor, above all
  for a person who is the only one on duty at these counters (`StaffLimit.LimitKeptByScoreIff`,
  `StaffLimit.LimitKeptAloneIff`). The
  excess is at most the number of these counters less one (`AssignRace.OvershootBound`).
- "COMPLETED (when all tasks are completed)" (README.md:39 of the repository) can fail: two
  completions side by side may each count the other's task as unfinished and leave the order
  PART_COMPLETED for good. This is possible exactly for orders of three or more tasks with two tasks
  that nothing waits for and that share no counter, machine or staff member
  (`OrderRollup.RollsUpIff`, `OrderRollup.ForgottenForGood`). It can happen in every reachable
  kitchen with two such tasks still to do (`OrderRollup.RiskyOrderForgets`), and
  `ForgottenOrder.OrderForgotten` reaches one.
- Explicit recipe dependencies may be cyclic, and nothing looks. In a staffed kitchen an order can
  still be finished if and only if no recipe of it has a cycle, whatever happened since its rows
  were stored, between the commits of its ConfirmOrder too (`OrderCompletion.RecipesDecide`);
  `OrderCompletion.KnotNeverFinishes` is a recipe that is accepted and can never be served.
- The queue may hold ids of tasks that are finished, since an id can be enqueued again by a process
  that looked at its task earlier. A single AllocateOnce assigns something exactly when one of the
  first 20 queued tasks can be taken (`Progress.RoundAssignsIff`), and there is a reachable kitchen
  in which a ready task waits behind 20 finished ones (`StaleIds.OneAllocationIsNotEnough`). It takes
  20 allocators that are held up, each with the one id it has looked at.
- The outbox delivers exactly once if and only if the broker never took an event without the row
  being marked for it (`Outbox.ExactlyOnceIff`); `Outbox.DeliveredTwice` is a run in which it did.
  Its backoff wraps around at 96039 attempts (`Outbox.BackoffWrapsAt96039`).

## Assumptions

- The primary and foreign keys of the schema hold, and every recipe step names an existing machine
  and counter. The step orders of a recipe are distinct where OrderExpansion.OrderLinksMean speaks of
  its rows; the analyzer itself is proved for any list of steps.
- Recipes, capacities, skills and shifts do not change while orders are in work.
- A crashed process is one that takes no further step; what it held is then lost to the others.
- Scores, priorities and efficiency are real numbers.

## Model

| member | source | states |
|---|---|---|
| KitchenTheorems.StepInv | internal/application/allocation_service.go:35-96 | every transaction, every part of ConfirmOrder and every queue operation keeps the whole invariant, from any state that has it |
| KitchenTheorems.ReachableInv | internal/application/order_service.go:89-136 | all of it holds in every state that any interleaving reaches |
| KitchenTheorems.DependencySafety | internal/repository/allocation_repo.go:13-23 | if a task is assigned, started or completed, everything it depends on is completed, requeues included |
| KitchenTheorems.PendingCountExact | internal/application/order_service.go:89-136 | across the separate commits of ConfirmOrder, pending_deps is the number of uncompleted dependencies once the counts are in; before, the task is unassigned and in no queue and no batch |
| KitchenTheorems.ResourceConservation | internal/repository/task_lifecycle_repo.go:61-69 | in_use and active_tasks are the numbers of assigned or started tasks that hold the resource, and never exceed capacity or max_parallel when transactions are atomic |
| KitchenTheorems.ClampsNeverBite | internal/repository/task_lifecycle_repo.go:71-101 | none of the GREATEST(x - 1, 0) of a completion or a requeue ever changes a value |
| KitchenTheorems.NoLostTask | internal/application/allocation_service.go:97-102 | an assignable task of a linked order is queued, in a popped batch, on a list about to be enqueued, or still ahead in ConfirmOrder, also when completions enqueue children and roll back |
| KitchenTheorems.LogReplaysToState | internal/repository/task_lifecycle_repo.go:112-178 | the events of a task replay to its status; ASSIGNED events count assignment_version, REQUEUED events that number less one unless the task is unassigned |
| KitchenTheorems.ReadinessExactlyOnce | internal/application/task_service.go:63-76 | after ConfirmOrder is through, a task has one TASK_READY event if all its dependencies are completed and none otherwise |
| KitchenTheorems.ReadinessSource | internal/repository/task_lifecycle_repo.go:71-87 | a root's TASK_READY comes from ConfirmOrder, any other task's from the completion of its last open dependency |
| KitchenTheorems.OrderStatusAgrees | internal/repository/order_repo.go:66-95 | with atomic transactions COMPLETED, PART_COMPLETED and IN_PROGRESS each hold exactly when the tasks say so |
| KitchenTheorems.OrderStatusForward | internal/repository/order_repo.go:85-95 | over any run the order status never moves backwards |
| ResourceAccounting.AssignAccounts | internal/application/allocation_service.go:71-85 | an assignment raises exactly the numbers of the three resources the task takes |
| ResourceAccounting.CompleteAccounts | internal/application/task_service.go:49-62 | a completion lowers exactly the numbers of the three resources the task held |
| ResourceAccounting.RequeueAccounts | internal/repository/task_lifecycle_repo.go:128-161 | so does the requeue of a stale assignment |
| ResourceAccounting.BusyIsCounted | internal/repository/task_lifecycle_repo.go:61-69 | a busy task is counted by its counter, machine and staff member |
| DependencyGate.ChildOfStarted | internal/repository/task_lifecycle_repo.go:72-76 | a dependent of a started task is unassigned and counts that task; if it counts only one, it is that one |
| DependencyGate.WaitingIsUnblocked | internal/repository/allocation_repo.go:17 | pending_deps = 0 of a linked order means that every dependency is completed |
| DependencyGate.CompleteFinishes | internal/application/task_service.go:42-62 | a completion marks its task and counts every dependent down by one, without a clamp or the status filter making a difference |
| DependencyGate.GateStep | internal/repository/order_repo.go:43-56 | every step keeps exact counts and dependency safety |
| DependencyGate.RecalculateGate | internal/repository/order_repo.go:43-56 | recounting, in its own commit after the edges, establishes exact counts |
| ReadyFlow.BeginReadsLastDeps | internal/repository/task_lifecycle_repo.go:80-86 | the children a completion reads back are those that waited for it alone |
| ReadyFlow.FlowStep | internal/application/task_service.go:59-76 | no step loses a ready task; ids that circulate early belong to tasks that wait for one started task only |
| ReadyFlow.ListReadyLists | internal/repository/order_repo.go:58-64 | the tasks ConfirmOrder lists are tasks of the order without dependencies |
| EventLog.LegalCounts | internal/models/types.go:3-30 | in any legal life, assignments and requeues alternate and start and completion happen at most once |
| EventLog.LogStep | internal/application/allocation_service.go:86-92 | status, assignment_version and log change together in every step |
| EventLog.ReadyStep | internal/application/order_service.go:123-136 | every step keeps TASK_READY events in step with publication and unlocking |
| OrderLifecycle.OrdersStep | internal/application/task_service.go:85-91 | every step keeps the stored order status equal to the status read off the tasks |
| OrderCompletion.FinishableIff | internal/application/allocation_service.go:13-110 | from any reachable state of a staffed kitchen, whatever its processes hold, a published order can still be finished if and only if its dependency graph has no cycle |
| OrderCompletion.RecipesDecide | internal/application/order_service.go:46-138 | after any run of any steps since the first commit of ConfirmOrder, in any staffed state, the order can be finished if and only if the graph of none of its recipes has a cycle |
| OrderCompletion.KnotNeverFinishes | internal/application/order_dependency_analyzer.go:34-42 | a recipe with two steps that wait for each other is accepted and published, and nothing can finish the order |
| Progress.OrderMakesProgress | internal/application/allocation_service.go:13-110 | from every reachable state with a published unfinished acyclic order, once the processes let go of what they hold, a task can be started or completed, or enough staffed allocations in a row to pop the present queue assign a task |
| Progress.RoundAssignsIff | internal/application/allocation_service.go:19-107 | a single AllocateOnce assigns something exactly when one of the first 20 queued tasks can be taken; in a staffed kitchen at rest, exactly when one of them is ready |
| StaleIds.OneAllocationIsNotEnough | internal/application/allocation_service.go:97-102 | a reachable, idle, staffed kitchen with a ready task in the queue in which AllocateOnce can only come back empty |
| StaleIds.FullOfStaleIds | internal/application/task_service.go:63-76 | for every n a reachable kitchen whose queue holds n finished tasks ahead of a ready one, left by a completion that rolled back and was repeated, and by n allocators that each came late with one id |
| Progress.ReadyTaskExists | internal/repository/order_repo.go:43-64 | when nothing is busy, an unfinished acyclic order has an unassigned task that waits for nothing |
| Progress.RoundAssignsOrShrinks | internal/application/allocation_service.go:19-107 | an allocation that assigns nothing, with staff present and nothing busy, only throws ids of finished tasks out of the queue |
| Progress.SomeRoundAssigns | internal/application/allocation_service.go:19-107 | a queued ready task means that one of the next size/20 (rounded up) allocations assigns something |
| Progress.AllocateIsRound | internal/application/allocation_service.go:15-17 | with nothing busy AllocateOnce takes nothing back, so its contract is the one the rounds are about |
| Progress.CycleNeverRuns | internal/application/order_dependency_analyzer.go:34-42 | a task on a dependency cycle is never assigned and its order never completed |
| OrderGraph.StoredFollowsRecipes | internal/application/order_service.go:89-115 | whatever comes between the commits, once the edges of an order are in they are acyclic exactly when the graphs of all its recipes are |
| OrderGraph.GraphStaysOverRuns | internal/repository/order_repo.go:36-41 | once an order's edges are in, no run changes them |
| CompletionRequests.RepeatsAreHarmless | internal/temporalx/allocation_workflow.go:82-91 | leaving out every completion request that comes when its task is not started gives the same final state: tables, metrics, log, queue |
| CompletionRequests.CompletesOnce | internal/temporalx/allocation_workflow.go:82-91 | among any attempts at most one completion of a task commits, exactly one if it ends completed, and completed is final |
| CompletionRequests.RepeatsAddNoSamples | internal/temporalx/allocation_workflow.go:82-91 | repeated requests add nothing to a staff member's record |
| CompletionRequests.MetricsOverRuns | internal/repository/task_lifecycle_repo.go:89-101 | after any attempts the efficiency is the closed-form 0.85-weighted average of its first value and all samples, and active_seconds grew by the clamped durations |
| CompletionRequests.EfficiencyInRange | internal/repository/task_lifecycle_repo.go:89-101 | the efficiency stays between the least and the greatest of its first value and the samples |
| StaffMetrics.EfficiencyClosedForm | internal/repository/task_lifecycle_repo.go:94-99 | the running update equals the sum of exponentially weighted samples |
| StaffMetrics.CreditNumbers | internal/repository/task_lifecycle_repo.go:89-101 | a task done in n whole seconds, at least one, adds n seconds, and the new efficiency less 0.85 of the old, times n, is 0.15 of the estimate |
| StaffMetrics.FasterIsNoWorse | internal/repository/task_lifecycle_repo.go:90-99 | a faster completion of the same task never leaves a lower efficiency, and a higher one if it saves a second after the first |
| StaffMetrics.WeightsSumToOne | internal/repository/task_lifecycle_repo.go:99 | the weights of the first value and of all samples add up to one |
| StaffMetrics.PickStaff | internal/application/staff_service.go:10-21 | the pick has the least score and is the first one with it; nobody on the same shift has as few tasks, as few active seconds and as much efficiency, unless all three are equal |
| StaffMetrics.ScoreCompares | internal/application/staff_service.go:23-27 | one score is lower exactly when 1.2 times the difference of tasks plus 0.9 times the difference of active seconds per second of shift is less than 1.1 times the difference of efficiency |
| StaffMetrics.BetterScoresLess | internal/application/staff_service.go:23-27 | of two people on one shift who are equal in the rest, the less loaded, the less used and the more efficient one scores lower |
| AssignRace.CapacityUnderInterleaving | internal/application/allocation_service.go:41-79 | with any number of allocators between check and commit, usage numbers stay exact and capacities are kept, because their rows are locked |
| AssignRace.OvershootBound | internal/application/allocation_service.go:41-85 | active plus in-flight tasks of a staff member are at most max_parallel - 1 plus the number of counters they can work at, which are among their skills; max_parallel for a single skill |
| AssignRace.OvershootReached | internal/application/allocation_service.go:66-69 | from any state one task short of the limit with work at each counter, the allocators can reach the bound; if the person has the least score for that work, picking by least score all along |
| AssignRace.LimitPassed | internal/application/allocation_service.go:66-69 | a state, reached by picks of least score, where a person limited to one task has two |
| StaffLimit.LimitKeptIff | internal/application/allocation_service.go:41-85 | in every interleaving from empty tables, whoever of the eligible is picked, a person stays within max_parallel, if and only if they are never on duty, or can work at one counter at most, or the counters they can work at have no room for one task too many |
| StaffLimit.LimitKeptByScoreIff | internal/application/staff_service.go:10-21 | with every pick by least score the same condition keeps the limit, and it is necessary for everybody who at some moment on duty scores no higher than any idle competitor even with max_parallel - 1 tasks |
| StaffLimit.LimitBroken | internal/application/allocation_service.go:66-69 | otherwise an order and an interleaving exist that give them max_parallel + 1 tasks, by free picks at any moment on duty, and by picks of least score at any moment at which they are favoured |
| StaffLimit.LimitKeptAloneIff | internal/application/staff_service.go:10-21 | with every pick by least score the condition decides for a person who is at some moment alone on duty at their counters |
| StaffLimit.RoomBound | internal/application/allocation_service.go:41-65 | a person never has more tasks than their counters have room for: slots of the counter, and slots of its machines that are up |
| AssignRace.RaceStepInv | internal/repository/allocation_repo.go:25-71 | every step of the finer model keeps usage, capacities, the validity of open picks and the bound |
| AssignRace.InFlightUsable | internal/application/allocation_service.go:41-65 | open picks of one person hold different counters, all of them ones where they can work |
| OrderRollup.CompletedMeansAllDone | internal/repository/order_repo.go:66-83 | in every interleaving a COMPLETED order has no task left |
| OrderRollup.RollsUpIff | internal/repository/order_repo.go:66-95 | all tasks done implies COMPLETED in every interleaving if and only if the order has fewer than three tasks or any two tasks nothing waits for share a resource |
| OrderRollup.RiskyPlansForget | internal/application/task_service.go:85-91 | for every other acyclic order there is an interleaving that ends PART_COMPLETED with all tasks done |
| OrderRollup.ForgottenForGood | internal/application/task_service.go:85-91 | nothing that can happen afterwards repairs it |
| OrderRollup.AloneIsCompleteTx | internal/application/task_service.go:41-93 | in any reachable kitchen the steps of one completion, run alone, do to the order what the completion transaction does to the tables |
| OrderRollup.RiskyOrderForgets | internal/repository/order_repo.go:66-83 | it can happen from any reachable kitchen in which two such tasks of the order are still to do |
| ForgottenOrder.OrderForgotten | internal/repository/order_repo.go:66-83 | a reachable kitchen with an order of three started tasks at three counters, from which it happens |
| OrderRollup.LastTwo | internal/repository/order_repo.go:67-75 | two open completions that are the last two of the order are independent last tasks, and the order is small only if nothing was completed before |
| DependencyAnalyzer.InferRecipeTaskDeps | internal/application/order_dependency_analyzer.go:16-89 | each edge once; on the rows: the explicit pairs, or without any, an assembly step waits for every earlier other step, and a step for the previous one on its machine unless the machine is known to have capacity for two; the last of several steps with one order counts |
| DependencyAnalyzer.AddEdge | internal/application/order_dependency_analyzer.go:20-32 | one more pair: added when both steps are known and different and it is new |
| DependencyAnalyzer.AddAssemblyEdges | internal/application/order_dependency_analyzer.go:55-71 | the assembly loops add exactly the assembly pairs |
| DependencyAnalyzer.AddMachineEdges | internal/application/order_dependency_analyzer.go:73-86 | the machine loop adds exactly the machine pairs |
| DependencyAnalyzer.AddExplicitEdges | internal/application/order_dependency_analyzer.go:34-42 | the explicit loops add exactly the explicit pairs |
| DependencyAnalyzer.FallbackAcyclic | internal/application/order_dependency_analyzer.go:44-88 | the inferred graph has no cycle |
| DependencyAnalyzer.MachineSerialized | internal/application/order_dependency_analyzer.go:73-86 | of two steps on one machine of capacity 1 or less, or of unknown capacity, the later reaches the earlier: they are totally ordered |
| DependencyAnalyzer.RoomyMachine | internal/application/order_dependency_analyzer.go:73-86 | on a machine of capacity 2 or more a step waits for another exactly when it is an assembly step and the other is not |
| DependencyAnalyzer.FallbackMeans | internal/application/order_dependency_analyzer.go:44-88 | the inferred pairs, read off the rows of the recipe |
| OrderExpansion.ExpandOrder | internal/application/order_service.go:46-87 | succeeds exactly for orders whose items have recipes with machines and some positive quantity; every item gets as many units as were ordered; builds the rows and links of all units; the link checks never fire; which error means what |
| OrderExpansion.TaskCount | internal/application/order_service.go:48-71 | the number of tasks is the sum over the items of quantity times steps |
| OrderExpansion.OrderedUnits | internal/application/order_service.go:48-56 | an item ordered n times has n units, and none if n is not positive |
| OrderExpansion.TasksOfOneItem | internal/application/order_service.go:56-71 | an order of n units of one item makes n times its steps tasks |
| OrderExpansion.TasksAddUp | internal/application/order_service.go:48-71 | the tasks of several items add up |
| OrderExpansion.OrderLinksMean | internal/application/order_service.go:56-72 | within a unit one task waits for another exactly as the rows of its recipe say: explicit rows if there are any, otherwise assembly steps and machines |
| OrderExpansion.RoomyUnit | internal/application/order_dependency_analyzer.go:73-86 | within a unit, a machine of capacity 2 or more makes no step wait that is not an assembly step |
| OrderExpansion.SerializedUnit | internal/application/order_dependency_analyzer.go:73-86 | within a unit, the tasks on any other machine run in the order of their steps |
| OrderExpansion.LinkHasBlock | internal/application/order_service.go:56-72 | every link stays inside the block of one unit |
| OrderExpansion.BlockRows | internal/application/order_service.go:56-71 | the block of a unit holds the counter, machine, estimate and priority of each step of its recipe, in order |
| OrderExpansion.BuiltLinksOk | internal/application/order_service.go:76-83 | the range and self-dependency checks accept all derived links |
| OrderExpansion.LinksValid | internal/application/order_service.go:76-83 | what those checks test |
| OrderExpansion.BlockAcyclic | internal/application/order_dependency_analyzer.go:20-32 | a unit's block has a cycle exactly when its recipe's graph has one |
| OrderExpansion.OrderAcyclic | internal/application/order_service.go:46-74 | the graph of the order is acyclic exactly when each recipe's graph is |
| OrderExpansion.InferredOrderAcyclic | internal/application/order_dependency_analyzer.go:44-88 | so orders without explicit dependency rows are acyclic |
| ReadyOrder.PoppedIff | internal/queue/inmemory_queue.go:23-58 | an enqueued id is among the next n popped exactly when fewer than n others come before it |
| ReadyQueue.InMemoryReadyQueue.PopTopN | internal/queue/inmemory_queue.go:30-58 | removes and returns min(n, size) ids in order of score and, for equal scores, of id text, all before those that stay; n <= 0 changes nothing |
| ReadyQueue.SortEntries | internal/queue/inmemory_queue.go:41-46 | the list sorted by score and id text, nothing lost |
| ReadyOrder.TopNIsLeast | internal/queue/inmemory_queue.go:48-57 | min(n, size) distinct ids, each strictly before every id that stays |
| ReadyOrder.TopNMeans | internal/queue/inmemory_queue.go:41-57 | the same in scores and texts |
| ReadyOrder.PopTwice | internal/queue/inmemory_queue.go:30-58 | popping a and then b returns what popping a + b returns |
| ReadyOrder.OrderingUnique | internal/queue/inmemory_queue.go:41-46 | score and id text leave one possible order, whatever order the map is read in |
| TaskKeys.ParseFormat | internal/application/allocation_service.go:29 | ids that were written as text are read back as themselves |
| TaskKeys.KeyLessTotal | internal/queue/inmemory_queue.go:43 | the text order of ids is strict and total |
| TaskKeys.TextLessMeans | internal/queue/inmemory_queue.go:43 | a text is less exactly when it has the smaller character at the first difference or ends there |
| TaskKeys.TenBeforeNine | internal/queue/inmemory_queue.go:43 | for equal scores 10 comes before 9 |
| Repository.KitchenRepository.FindEligibleStaff | internal/repository/allocation_repo.go:25-34 | all staff that are skilled, in shift, not on break and below their limit, and nobody else, in the columns of the rows |
| Repository.KitchenRepository.RequeueExpiredAssignedTasks | internal/repository/task_lifecycle_repo.go:112-178 | takes back assigned, not started tasks with assigned_at before the cutoff, the oldest first, up to the limit, 50 by default; below the limit all of them; their rows are reset and logged and no other task row changes |
| Repository.RequeueAllRows | internal/repository/task_lifecycle_repo.go:128-174 | the listed rows are reset and logged in order, every other row stays |
| Repository.StalestFirst | internal/repository/task_lifecycle_repo.go:119-124 | the selection in the columns of the rows |
| Repository.KitchenRepository.UpdateTaskStatusStarted | internal/repository/task_lifecycle_repo.go:15-36 | starts exactly an assigned task, with the errors for the other cases |
| Repository.KitchenRepository.UpdateTaskStatusCompleted | internal/repository/task_lifecycle_repo.go:38-59 | completes exactly a started task, with the errors for the other cases |
| Repository.KitchenRepository.UpdateStaffEfficiencyAndActive | internal/repository/task_lifecycle_repo.go:89-101 | active_tasks takes the delta but not below 0, active_seconds grows by the whole seconds, at least 1, and the efficiency takes 0.15 of estimate per second |
| Repository.KitchenRepository.DecrementDependentPendingDeps | internal/repository/task_lifecycle_repo.go:71-87 | counts the unassigned dependents down and returns those at zero |
| Repository.KitchenRepository.CompleteOrderIfAllTasksDone | internal/repository/order_repo.go:66-83 | completes the order exactly when no task of it is left |
| Repository.KitchenRepository.CreateOrderWithTasks | internal/repository/order_repo.go:10-34 | a new order and, under unused ids, one unassigned task with the columns of each row; nothing else changes |
| Repository.KitchenRepository.RecalculatePendingDepsForOrder | internal/repository/order_repo.go:43-56 | sets the count of each task of the order that has dependencies |
| Repository.KitchenRepository.ListOrderReadyTasks | internal/repository/order_repo.go:58-64 | the assignable tasks of the order, by id |
| ServiceEffects.ScoreOrder | internal/application/priority_service.go:5-9 | of two scores, whenever each was taken, the lower is the one whose priority is ahead by more than 0.14 for each second the other has waited longer; at one moment the order does not depend on the moment |
| ServiceEffects.BestPickCompares | internal/application/staff_service.go:10-27 | no eligible person beats the picked one in 1.2 a task, 0.9 the used share of the shift and 1.1 a point of efficiency |
| ServiceEffects.AssignedRows | internal/application/allocation_service.go:69-92 | the row names the person, the machine and the time, the three usage numbers rise by one, and the event names the person and the machine |
| ServiceEffects.EnqueuedScores | internal/application/priority_service.go:5-9 | enqueued ids get minus their priority and 0.14 a second of waiting; no other entry changes |
| ServiceEffects.BatchRows | internal/application/allocation_service.go:26-107 | every popped id is tried on its own: assigned with its row filled in, or enqueued again with its score if it still waits, and nothing else is touched |
| ServiceEffects.FirstMeans | internal/application/allocation_service.go:104-110 | the returned id is the first assigned one |
| ServiceEffects.CompletedTaskRows | internal/application/task_service.go:41-59 | a completion changes the row of its task, counts down each unassigned dependent, and no other task |
| ServiceEffects.CompletedResources | internal/application/task_service.go:55-57 | it takes a task from the person and credits the time and the estimate |
| ServiceEffects.CompletedSlots | internal/application/task_service.go:49-54 | and gives back one slot of the counter and of the machine |
| ServiceEffects.CompletedOrder | internal/application/task_service.go:85-91 | the order is COMPLETED if every other task of it is, and PART_COMPLETED at least otherwise |
| ServiceEffects.ConfirmedRows | internal/application/order_service.go:89-115 | one new row for each task with pending_deps the number of its dependency rows, one dependency row for each link, and nothing old changed |
| ServiceEffects.ConfirmedReady | internal/application/order_service.go:117-136 | the published tasks are the new ones without dependency rows |
| KitchenService.KitchenAppService.AssignOne | internal/application/allocation_service.go:34-96 | assigns exactly when the task waits, its counter and machine have room and somebody skilled is on duty below the limit; then to a person whom nobody eligible beats in the weighted load, use and efficiency; the row and the logged event name that person and the machine; otherwise nothing changes |
| KitchenService.KitchenAppService.AllocateOnce | internal/application/allocation_service.go:13-110 | takes back what is stale, pops 20, tries each id once with re-enqueue of what still waits, and returns the first assigned id; tasks neither stale nor popped keep their rows |
| KitchenService.KitchenAppService.RequeueExpired | internal/application/allocation_service.go:112-125 | takes back tasks that were assigned more than 45 seconds ago and not started, all of them if fewer than 50, and enqueues them with 10 points of priority more; a task assigned within 45 seconds keeps its row |
| KitchenService.KitchenAppService.StartTask | internal/application/task_service.go:13-36 | an assigned task becomes STARTED with its time and is logged, or nothing changes |
| KitchenService.KitchenAppService.CompleteTask | internal/application/task_service.go:38-98 | the row, the credit of the person, the unlocked children with their scores, and the events; or no change and the error |
| KitchenService.KitchenAppService.CompleteTaskByIDActivity | internal/temporalx/allocation_workflow.go:82-91 | a task that is missing or not started counts as done and nothing changes |
| KitchenService.KitchenAppService.DependencyRows | internal/application/order_service.go:94-108 | one row per link: the second removal of duplicates never finds one |
| KitchenService.KitchenAppService.ConfirmOrder | internal/application/order_service.go:12-139 | succeeds exactly for orders that can be expanded; as many units as were ordered, one task row with the columns of each step, one dependency row for each link; queues and announces exactly the new tasks that wait for nothing; or no change and the error |
| ServiceRuns.AllocateLeads | internal/application/allocation_service.go:13-110 | an AllocateOnce with the outcome its contract states is a run of the transition system, whatever ids other processes hold |
| ServiceRuns.StartLeads | internal/application/task_service.go:13-36 | so is a StartTask |
| ServiceRuns.CompleteLeads | internal/application/task_service.go:38-98 | so is a CompleteTask, with any other completions open that do not hold its rows |
| ServiceRuns.ConfirmLeads | internal/application/order_service.go:12-138 | so is a ConfirmOrder, from what the call requires and what its contract states |
| ServiceRuns.BuiltRowsOk | internal/application/order_service.go:56-71 | the rows it builds name existing counters and machines |
| ServiceRuns.LeadsKeepsInv | internal/application/kitchen_service.go:31-40 | and therefore all of them keep the invariant |
| Outbox.Dispatcher.DispatchOnce | internal/outbox/dispatcher.go:50-77 | up to 100 due unlocked rows by id; committed exactly if no mark fails; then acknowledged rows are published, the others due again after the backoff, and the broker got what decodes and was not refused; otherwise no row changes while the broker keeps what it took |
| Outbox.Dispatcher.LockPendingOutboxEvents | internal/repository/event_repo.go:41-53 | the first unpublished rows by id that are due and not locked, up to the limit |
| Outbox.PassMeans | internal/outbox/dispatcher.go:57-75 | a pass row by row, and when it is rolled back |
| Outbox.DeliveredMeans | internal/outbox/dispatcher.go:57-75 | what a committed pass hands over |
| Outbox.PublishedWasHanded | internal/outbox/dispatcher.go:65-73 | whatever fails, a row marked published was handed to the broker, and the broker holds payloads of rows only |
| Outbox.UnpublishedComesBack | internal/repository/event_repo.go:41-73 | after any further inserts, passes, failures and rollbacks an inserted row is still there with its payload, unchanged if it was published; unpublished, from some time on every pass that does not find it locked selects it unless 100 due rows come first |
| Outbox.RunKeepsRow | internal/repository/event_repo.go:55-73 | no run removes a row, changes a payload or touches a published row |
| Outbox.SelectedIff | internal/repository/event_repo.go:46-51 | a due row is in the batch exactly when fewer than 100 due unlocked rows have smaller ids |
| Outbox.AttemptsCountFailedTries | internal/repository/event_repo.go:65-73 | attempts is the number of committed failed tries |
| Outbox.RetrySpacing | internal/outbox/dispatcher.go:65-68 | after a failed try the row is due again after min(n * n, 300) seconds, n being its attempts |
| Outbox.DeliveriesCounted | internal/outbox/dispatcher.go:57-75 | over any run the deliveries of a row are the one it was marked for and those that left it unmarked, because the broker reported a failure or the pass rolled back |
| Outbox.ExactlyOnceIff | internal/outbox/dispatcher.go:57-75 | every published event was delivered once and every other never, if and only if no delivery was left unmarked |
| Outbox.DeliveredTwice | internal/outbox/dispatcher.go:71-73 | a mark that fails after delivery makes a second delivery |
| Outbox.HealthyRunDrains | internal/outbox/dispatcher.go:50-77 | n passes without failure publish everything if at most 100 * n rows were waiting |
| Outbox.BackoffFits | internal/outbox/dispatcher.go:83 | the product stays within 64 bits exactly up to 96038 attempts |
| Outbox.BackoffIsCappedSquare | internal/outbox/dispatcher.go:79-88 | up to there the delay is min(n * n, 300) seconds |
| Outbox.BackoffNumbers | internal/outbox/dispatcher.go:79-88 | in nanoseconds: one second up to the first attempt, the square of the attempts up to the 17th, five minutes from the 18th |
| Outbox.BackoffMonotone | internal/outbox/dispatcher.go:79-88 | and it is monotone, between one second and five minutes |
| Outbox.BackoffWrapsAt96039 | internal/outbox/dispatcher.go:83 | with one attempt more it is negative |

## Left out

- HTTP controllers, routing, configuration, migrations and process start-up: plumbing.
- Kafka, Redis and Temporal clients: the broker is an append-only log that may refuse, take or take without confirming; a timer is a completion that may come at any time after the start. The Redis queue is not part of this model, only the in-memory one.
- Queue entries that are not decimal numbers: every id that is enqueued is written by FormatUint, so the branch that skips them is not modelled.
- Wall clock: `now` is a parameter, so nothing is said about the order of timestamps of different tasks.
- Database faults in the middle of a service call, and crashes that lose popped ids: a failed transaction leaves the state unchanged; NoLostTask speaks of ids a process still holds.
- Rounding of scores and efficiency, and the NUMERIC(6,3) column: real numbers instead.
- The keyword list of isAssemblyLike: a flag of each recipe step.
- claimed_by, claimed_until, descriptions, external order ids, event timestamps: they decide nothing.
- Popped ids belong to no allocator in the transition system: any id that was popped may be tried, given up or enqueued again at any time, which allows more interleavings than allocators that work through their 20 ids in order.
- StaffLimit.LimitKeptIff: allows any eligible pick, not only the least score of pickStaff; with least-score picks StaffLimit.LimitKeptByScoreIff has the only-if half for people who are favoured at some moment.
- StaffLimit.LimitKeptByScoreIff: does not decide whether the limit can be passed by a person whom a competitor outdoes at every moment, because that depends on what the competitors have done before.
- Fairness: OrderCompletion.FinishableIff says that an order can be finished, not that any scheduler gets to it; a queued score is not refreshed while it waits, and the boost of a requeue is not stored.
- The requeue transaction takes back up to 50 tasks at once; in the transition system each is a step of its own, which allows more interleavings.
- Deadlocks and lock timeouts: a transaction that is aborted for one takes its abort step.
- The finer models of assignment and roll-up are separate: each splits one transaction and keeps the others atomic.
- The resources of a task in the roll-up model are fixed from the start (OrderRollup.PlanOf reads them off the rows), since a started task never changes them.
- Outbox.HealthyRunDrains: speaks of tables whose rows all decode; rows that never decode are retried for ever and may take places in a batch.
- Outbox attempts are unbounded integers, not the 32-bit column.

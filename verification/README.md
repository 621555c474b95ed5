# A verified model of the farm's scheduler

The farm runs firmware suites on boards shared between many queued runs. This project models the
parts of it that decide and that keep several things from happening at once, and proves what they
promise over every queue, every inventory and every course of events:

- the **allocator**: which queued runs start, on which worker and which boards, and what a run that
  waits keeps from the runs behind it;
- the **dispatcher** around it: the job table, the claim of one job at a time, cancellation, release,
  and the locks a running job takes;
- the stateful algorithms beside it: the address throttle, the busy-time statistics, the storage
  measurement cache, the pruning of firmware bundles under the artifact lock, and the quarantine of
  boards;
- two readers in the provider code: the size of an RSA public key, and the shortening of a message.

## How it is laid out

| file | what is in it |
|---|---|
| `Names.dfy` | text order and sorting |
| `Allocation.dfy` | the allocator's data and decisions, as functions |
| `Choosing.dfy`, `Scheduler.dfy` | the same decisions made step by step: the loops of `_choose`, `_fits_idle` and `coverage`; `class Rig` with its running grants and what is withheld on it, and the loops of `plan`; each proved equal to its function |
| `Pools.dfy`, `Rules.dfy` | what one attempt may grant; no overtaking; no rig idle for nothing |
| `Safety.dfy` | one plan never makes runs collide, nor runs a worker past its configured limit |
| `Granting.dfy`, `Origins.dfy`, `Asking.dfy` | what a grant holds: what its demand asks, of every plan; over histories; and from what was submitted |
| `Picking.dfy`, `Withheld.dfy` | exactly when boards are picked; exactly what is withheld, when a run starts past waiting ones, and that reasons to wait are true |
| `Placing.dfy` | the rigs of a plan, the ones a demand tries, and that a plan answers for its whole queue |
| `Waiting.dfy`, `Fairness.dfy` | how long the first in line for a worker waits there: over rounds of plans, and in any history of the farm |
| `Feasibility.dfy` | when the greedy check is right |
| `Coverage.dfy` | what a run went without |
| `JobQueue.dfy` | the job table and its order |
| `Dispatch.dfy`, `Service.dfy` | the farm as a transition system; one pass of the dispatcher as a method |
| `Cancelling.dfy`, `Lifecycle.dfy` | over histories: how a cancel ends and what it leaves behind; what becomes of a job's row, and that a pass tries all it plans |
| `Jumping.dfy` | exactly where a run starts past one queued first |
| `Locks.dfy` | the rig lock and the board locks |
| `Throttle.dfy`, `BusyTime.dfy`, `StorageCache.dfy`, `Prune.dfy`, `ArtifactLock.dfy`, `Quarantine.dfy` | the algorithms beside it |
| `Spki.dfy`, `Message.dfy` | the two readers |

Code that updates state is a class or a method with its loops, tied by its contract to a function of
the old state; what the farm promises is then proved about those functions, one plan at a time
(`Rules.Run`: the rigs as each queued demand finds them) or one history at a time (`Dispatch.History`,
`Locks.Leads`, `StorageCache.Leads`, `ArtifactLock.Leads`).

## What holds only with a condition

Where the code does less than its prose says, the code is modelled as it is, the condition under which
the promise holds is proved, and a lemma constructs a case where it does not.

- *Nothing jumps a job that was queued first.* A run that has the rig to itself ignores what earlier
  demands keep there, short of the whole rig (`Rules.AloneStartsIff`). With some queue the service can make,
  something starts on a rig past a demand waiting for it if and only if the rig is idle, one of its boards is
  reserved and it runs some profile (`Jumping.JumpedIffReserved`); within a plan it takes a demand that names
  the reserved board (`Rules.AlonePassesOnlyReserved`, `Rules.NothingJumpsTheQueue`).
- *A demand the rig cannot meet even when idle.* The check serves needs greedily in the order listed.
  It is right on every inventory exactly when required needs come before optional ones of a family and
  tags widen from one need to the next (`Feasibility.GreedyIsExactIff`).
- *A check retried and passed is a pass.* So says a comment (core/alteriom_hil/service.py:1961-1962); the code
  keeps the failure (`Quarantine.RedOnceIsRed`, `Quarantine.RetryStaysRed`).
- *A board is quarantined because another passed where it failed.* So it is in the run that quarantines
  it if and only if that run was conclusive about the board (`Quarantine.CondemnedByComparison`). An
  inconclusive run quarantines on the failures before it; there are rows of other runs on which it does if and
  only if the streak asked for is shorter than the history kept (`Quarantine.InconclusiveCanCondemn`).
- *Busy time.* A job that begins after now and ends later still is counted backwards; the total is the
  measure of the busy instants exactly when there is none (`BusyTime.BusySeconds`, `BusyTime.LateIsNegative`).
  The split by day is exact either way.
- *Fresh figures.* Figures are marked fresh exactly when nothing was deleted since the latest walk to end
  began; they are whole besides exactly when that walk got through (`StorageCache.FreshAndWholeIff`), and it
  need not have (`StorageCache.PartialFiguresCanBeFresh`). A measuring thread that cannot be started leaves
  the figures as they are for good (`StorageCache.MeasuredUntilAThreadFails`).
- *The throttle.* On every course of attempts whose times come in order, the book agrees with a log that
  forgets nothing if and only if the window is empty or no address is asked about with two allowances of which
  the larger is positive (`Throttle.AgreesIffSteady`). The two throttles of the farm are each asked with one.
  On a single course a smaller allowance is safe: asked with one no larger than any before, an address is
  judged exactly (`Throttle.LowerIsExact`).
  The clock is read before the lock is taken, so times can come out of order: then, with any allowance of two
  or more, the book can forget what still counts (`Throttle.OutOfOrderForgets`), but it never refuses early and
  its lists stay short (`Throttle.NeverRefusesEarly`, `Throttle.ListsStayShort`).

## Conventions

Board ids are unique in an inventory; limits are listed once a worker, as a dict lists them. A board's hold is
none, reserved or quarantined. What a dict of
"who is ahead" is used for besides wording is its keys, so those are sets. Counts and times are integers
(the throttle's times are reals); `when` maps an unreadable timestamp to 0, before every other.

## Model

| member | source | states |
|---|---|---|
| Pools.ChoiceIsSound | core/alteriom_hil/allocation.py:415-455 | chosen boards are distinct, on this rig, not busy, not of a family waited for ahead; by need only boards nobody holds out, by name exactly those named and none reserved |
| Rules.FitsIffPicked | core/alteriom_hil/allocation.py:209-223 | needs fit an idle rig if and only if choosing with nothing held and nobody ahead succeeds |
| Rules.IdleChoice | core/alteriom_hil/allocation.py:424-433 | on an idle rig that fits it, a demand is turned away if and only if it names a reserved board |
| Rules.AloneStartsIff | core/alteriom_hil/allocation.py:272-310 | exactly when a demand starts alone: nobody ahead waits for the whole rig, nothing runs, it runs alone or cannot be met, and it names no reserved board |
| Rules.IdleRigStartsIff | core/alteriom_hil/allocation.py:272-335 | an idle rig with nothing withheld turns a demand away only for a reserved board it names |
| Rules.GrantsItsOwnBoards | core/alteriom_hil/allocation.py:272-335 | a grant is for its demand and worker; its boards are the rig's, each once, never reserved, quarantined only if named |
| Rules.NamedGetsExactlyThose | core/alteriom_hil/allocation.py:415-433 | a demand that names boards the rig has gets exactly those; one that names an absent board gets the rig and no board |
| Rules.AdvanceGrows | core/alteriom_hil/allocation.py:256-270 | within a plan a rig's grants and what is withheld only grow |
| Rules.SharedGrantAvoids | core/alteriom_hil/allocation.py:311-335 | a shared grant keeps clear of the resources, named boards and families withheld there |
| Rules.LeftIsKept | core/alteriom_hil/allocation.py:377-411 | what a waiting demand keeps on a candidate rig stays kept to the end of the plan |
| Rules.NoOvertaking | core/alteriom_hil/allocation.py:256-335 | past a demand left waiting on a rig, nothing starts there while it waits for the whole rig, and a shared grant takes none of its resources, boards or families |
| Rules.WorkConservation | core/alteriom_hil/allocation.py:377-411 | if a rig is idle after a plan, the first demand left waiting with it as a candidate fits it and names a reserved board |
| Rules.AlonePassesOnlyReserved | core/alteriom_hil/allocation.py:290-310 | a run alone passes a demand waiting there only if one at or before it, waiting too, names a reserved board |
| Rules.NothingJumpsTheQueue | core/alteriom_hil/allocation.py:377-411 | with no reserved board named, whatever starts past a waiting demand is shared and keeps clear of it |
| Picking.RequiredPicks | core/alteriom_hil/allocation.py:415-455 | required needs are met from what is free if and only if the boards not busy fit them and no family they want is waited for |
| Picking.PickedIff | core/alteriom_hil/allocation.py:415-455 | needs, optional ones too, are met from what is free if and only if no need, those before it served, finds its family waited for or fewer boards free than it asks |
| Picking.TakesEarliest | core/alteriom_hil/allocation.py:434-455 | a need that is given a board also has every board listed before it that it could have and no earlier need was given |
| Withheld.WithheldIsWaitedFor | core/alteriom_hil/allocation.py:256-270 | at each point of a plan a rig withholds exactly the families, boards and resources that demands left waiting for it ask, and is held back whole exactly if one of them waits for all of it, in the name of the first |
| Withheld.SharedStartsIff | core/alteriom_hil/allocation.py:272-335 | exactly when a run starts beside others, whoever waits ahead: it may share, nobody ahead waits for the whole rig, all that runs is shared, a slot is free, and its resources and boards are neither held there nor asked for by those waiting there |
| Withheld.StartsAloneIff | core/alteriom_hil/allocation.py:284-310 | exactly when a run starts with the rig to itself, in terms of who waits ahead and what runs |
| Withheld.WaitsForWholeIff | core/alteriom_hil/allocation.py:276-297 | exactly when a demand left waiting holds the whole rig back |
| Withheld.ReasonIsTrue | core/alteriom_hil/allocation.py:272-335 | every reason a rig gives a demand to wait is true of the rig as the demand finds it |
| Placing.RigsAreAsConfigured | core/alteriom_hil/allocation.py:359-376 | a plan has one rig for each worker there is, with its boards in inventory order, its runs, its configured limit and profiles, nothing withheld |
| Placing.RigsStandInOrder | core/alteriom_hil/allocation.py:359-363 | the rigs stand in the order in which boards, then runs, then limits first name their workers |
| Placing.CandidateIff | core/alteriom_hil/allocation.py:378-400 | a demand tries every rig that suits it or, if none does, the first it may try |
| Placing.StartsOnFirst | core/alteriom_hil/allocation.py:401-411 | a demand starts on the first rig it tries that grants it, and is left exactly if none does |
| Placing.ReasonIsFirst | core/alteriom_hil/allocation.py:380-411 | a demand left waiting has the reason of the first rig it tries, or that there is none to try, truly |
| Placing.PlanAnswersForAll | core/alteriom_hil/allocation.py:338-411 | every demand of the queue either starts or waits with a reason that is true, never both, and no other job waits |
| Placing.PlanStartsInOrder | core/alteriom_hil/allocation.py:377-406 | what a plan starts it lists in queue order |
| Placing.PausedStartsNothing | core/alteriom_hil/allocation.py:355-358 | while the queue is paused nothing starts and every queued job waits for that reason |
| Granting.AttemptFits | core/alteriom_hil/allocation.py:272-335 | a grant is what its demand asks of the rig: shared with the resources the demand declares, or alone with all of them; the boards named, boards that meet every required need, the whole bank in inventory order, or none where the rig cannot meet it |
| Granting.PlanGrantsWhatIsAsked | core/alteriom_hil/allocation.py:338-411 | every grant of a plan is what its own job's demand asks, on a worker the demand may go to, shared only where the worker may run several |
| Granting.SharedUseIsExclusive | core/alteriom_hil/allocation.py:311-335 | of all that runs on the worker of a shared start or starts with it, nothing else holds a resource its demand declares |
| Jumping.JumpedIffReserved | core/alteriom_hil/allocation.py:284-411 | over every farm, rig and queue the service can make: some demand starts there past one waiting for it, alone or with what that one waits for, if and only if nothing runs on the rig, a board of it is reserved and it runs some profile |
| Safety.GrantKeepsApart | core/alteriom_hil/allocation.py:272-335 | a grant joins only runs it may run beside, and only below the limit |
| Safety.RigsAreWorkers | core/alteriom_hil/allocation.py:359-378 | every worker with boards, grants or a limit is exactly one rig of the plan, and every rig is such a worker or the only one |
| Safety.PlanTracks | core/alteriom_hil/allocation.py:377-411 | throughout a plan a rig's active runs are those it had and those started there since, apart and within the limit |
| Safety.PlanKeepsSafe | core/alteriom_hil/allocation.py:338-411 | a plan keeps every worker within any cap that no configured limit exceeds, exclusive runs alone, boards and resources held once, whatever the inventory |
| Safety.LimitIffAllowed | core/alteriom_hil/allocation.py:369-376 | a worker's limit is the one listed for it, or the farm's where none is, and one at least |
| Safety.PlanKeepsToLimit | core/alteriom_hil/allocation.py:229-335 | a plan leaves no worker more runs than its configured limit, unless it had as many before |
| Safety.PlanGrantsItsWorkersBoards | core/alteriom_hil/allocation.py:272-335 | every board a plan grants is its worker's, unreserved, and quarantined only where the run's demand names it |
| Safety.PlanStartsQueuedOnce | core/alteriom_hil/allocation.py:377-411 | a plan starts each queued job at most once and nothing else |
| Waiting.StartsWhenClear | core/alteriom_hil/allocation.py:272-335 | a demand with nothing in its way and a slot free starts |
| Waiting.FoundUntouched | core/alteriom_hil/allocation.py:377-411 | a demand finds a rig that none before it may go to as the plan began |
| Waiting.StartsKeepClear | core/alteriom_hil/allocation.py:377-411 | what starts on a worker while the first that may go there waits is shared and keeps clear of it |
| Waiting.FirstStartsWhenOldGone | core/alteriom_hil/allocation.py:338-411 | once the runs it found on a worker are gone, the next plan starts the first that may go there |
| Waiting.RoomIsKept | core/alteriom_hil/allocation.py:256-335 | round after round, later starts on a worker leave the first in line its boards, resources and a slot |
| Waiting.BarredNeverStarts | core/alteriom_hil/allocation.py:415-433 | a demand that fits a rig but for a reserved board it names never starts there |
| Waiting.BoundedWaiting | core/alteriom_hil/allocation.py:338-411 | on each worker that keeps its boards and limit: the first of the queue that may go there, not barred by a reserved board, starts at the latest in the first round that finds gone every run the worker had when it got to lead there |
| Waiting.FittingMayUse | core/alteriom_hil/allocation.py:247-255 | a demand that fits the boards of a worker may go there in every round, whatever runs |
| Waiting.OthersMayNot | core/alteriom_hil/allocation.py:377-400 | a demand that names another rig, or a profile the worker does not run, is never in line there |
| Fairness.HeldFromPlan | core/alteriom_hil/service.py:1499-1569 | until the next plan of a history, whatever is held was held when the plan was made or comes from the plan, on the same worker |
| Fairness.RoundsFollow | core/alteriom_hil/service.py:1499-1569 | two plans of a history in a row are two rounds in a row |
| Fairness.FarmBoundedWaiting | core/alteriom_hil/service.py:1499-1569 | in any history, whatever happens between its plans and to other workers: a job that is at each plan the first of the queue that may go to a worker is in the start list of one of them, the last at the latest if by then the runs it first found there are gone |
| Feasibility.FitsIsSatisfiable | core/alteriom_hil/allocation.py:209-223 | if the greedy check accepts, disjoint boards meet every required need |
| Feasibility.SatisfiableMeetsDue | core/alteriom_hil/allocation.py:209-223 | if disjoint boards meet every required need, enough boards match every family's demand up to each need |
| Feasibility.HallFits | core/alteriom_hil/allocation.py:209-223 | for well-ordered needs that condition makes the greedy check accept |
| Feasibility.GreedyIsExact | core/alteriom_hil/allocation.py:180-223 | for well-ordered needs the check accepts if and only if the demand can be met |
| Feasibility.MisreadsMisleading | core/alteriom_hil/allocation.py:180-223 | for any badly ordered needs, an inventory on which they can be met and the check refuses |
| Feasibility.GreedyIsExactIff | core/alteriom_hil/allocation.py:180-223 | needs are well ordered if and only if the check is right on every inventory |
| Coverage.GivenAsAsked | core/alteriom_hil/allocation.py:434-455 | each need is given exactly what it asks for, less than its count only if optional |
| Coverage.InventoryOrder | core/alteriom_hil/allocation.py:480-514 | coverage of the granted boards in inventory order names what each need went without |
| Coverage.GrantOrder | core/alteriom_hil/allocation.py:480-514 | and so it does in the order they were granted |
| Coverage.GrantedIsFlat | core/alteriom_hil/allocation.py:434-455 | the boards granted are those given to the needs, in turn |
| Coverage.CoverageIsHonest | core/alteriom_hil/allocation.py:480-514 | coverage lists exactly the optional needs given fewer boards than they count, with what each got, and no required need |
| Choosing.Serve | core/alteriom_hil/allocation.py:209-223 | removing matching boards one by one leaves the pool the check goes on with |
| Choosing.CanFitIdle | core/alteriom_hil/allocation.py:209-223 | the loop of the check decides it |
| Choosing.CoverageMissing | core/alteriom_hil/allocation.py:480-514 | the loop of coverage computes it |
| Choosing.ChooseNamed | core/alteriom_hil/allocation.py:424-433 | the loops over named boards choose or name the board in the way |
| Choosing.ChooseByNeed | core/alteriom_hil/allocation.py:434-455 | the loop over needs, filtering the whole inventory each time, chooses as need-by-need picking from what is left |
| Choosing.ChooseBoards | core/alteriom_hil/allocation.py:415-455 | the choice of boards |
| Scheduler.Rig.constructor | core/alteriom_hil/allocation.py:229-242 | a rig as a plan begins |
| Scheduler.Rig.CanTake | core/alteriom_hil/allocation.py:247-255 | whether the rig is offered a demand at all |
| Scheduler.Rig.Withhold | core/alteriom_hil/allocation.py:256-270 | the rig's new state, and nothing else of it changed; over a plan that is what Withheld.WithheldIsWaitedFor says |
| Scheduler.Rig.TryGrant | core/alteriom_hil/allocation.py:272-335 | the outcome of an attempt, the rig unchanged |
| Scheduler.Rig.TryAlone | core/alteriom_hil/allocation.py:284-310 | the outcome for a demand that runs alone or cannot be met |
| Scheduler.Rig.TryShared | core/alteriom_hil/allocation.py:311-335 | the outcome for a demand that runs beside others; what it grants is what Granting.AttemptFits says, and when what Withheld.SharedStartsIff says |
| Scheduler.FindCandidates | core/alteriom_hil/allocation.py:378-400 | the candidates in order: every rig it fits or the first that runs it |
| Scheduler.Place | core/alteriom_hil/allocation.py:377-411 | one demand placed on the first candidate that grants it, or withheld on all |
| Scheduler.MakeRigs | core/alteriom_hil/allocation.py:359-376 | one rig per worker, in the order workers are met, each as Placing.RigsAreAsConfigured says |
| Scheduler.MakePlan | core/alteriom_hil/allocation.py:338-411 | the loops make exactly the plan the functions define |
| JobQueue.JobStore.Create | core/alteriom_hil/jobstore.py:1201-1223 | the new job joins the queue at the back |
| JobQueue.JobStore.Claim | core/alteriom_hil/jobstore.py:1584-1595 | won if and only if the job was queued; it leaves the queue, the others keeping their order |
| JobQueue.JobStore.CancelIfQueued | core/alteriom_hil/jobstore.py:1283-1292 | likewise for a cancellation |
| JobQueue.JobStore.Requeue | core/alteriom_hil/jobstore.py:402-410 | a running job back in the queue, at its place by priority and age; without it the queue is as it was |
| JobQueue.JobStore.Promote | core/alteriom_hil/jobstore.py:1605-1619 | a queued job moves to the front, the others keeping their order; otherwise the error and no change |
| JobQueue.TopIsTop | core/alteriom_hil/jobstore.py:1605-1619 | no queued row has a priority above the top a promotion goes by |
| JobQueue.TopIsReached | core/alteriom_hil/jobstore.py:1605-1619 | and the top is a queued row's, or 0 |
| JobQueue.ServedInOrder | core/alteriom_hil/jobstore.py:1574-1582 | the queue is every queued row, by priority and then age |
| JobQueue.OrderIsUnique | core/alteriom_hil/jobstore.py:1574-1582 | there is one such order |
| JobQueue.QueuedOnce | core/alteriom_hil/jobstore.py:1574-1582 | the queue names each queued job once |
| JobQueue.StandsByAge | core/alteriom_hil/jobstore.py:1574-1582 | before a queued job stand exactly the queued rows of higher priority, or the same and older |
| JobQueue.CreateAppends | core/alteriom_hil/jobstore.py:1201-1223 | a submission appends |
| JobQueue.LeavesQueue | core/alteriom_hil/jobstore.py:1584-1595 | a claim or cancellation removes |
| JobQueue.PromoteLeads | core/alteriom_hil/jobstore.py:1605-1619 | a promotion moves to the front: the latest wins |
| JobQueue.RequeueRejoins | core/alteriom_hil/jobstore.py:402-410 | a job sent back stands behind exactly the rows ahead of it by priority and age; the others are as they were |
| JobQueue.QueueIsList | core/alteriom_hil/jobstore.py:1574-1619 | over every course of operations without a job sent back, the table serves its jobs as a plain list would |
| Dispatch.SafeWithout | core/alteriom_hil/service.py:1794-1796 | grants that go leave a farm safe |
| Dispatch.SettleKeepsSafe | core/alteriom_hil/service.py:1782-1792 | a run alone may settle on other boards |
| Dispatch.DecisionIsCollisionless | core/alteriom_hil/service.py:1499-1540 | a plan made from the grants as they are now, for a queue read earlier, collides with nothing |
| Dispatch.ClaimIsCollisionless | core/alteriom_hil/service.py:1544-1554 | neither does a plan some of whose claims fail |
| Dispatch.RecordIsCollisionless | core/alteriom_hil/service.py:1553-1554 | recording a claimed grant adds it once |
| Dispatch.FarmStaysSafe | core/alteriom_hil/service.py:1499-1569 | in every state of every history, started with nothing running or with grants restored from the rows: workers within any cap that no limit configured along the way exceeds, exclusive runs alone, boards and resources held once, no job running twice |
| Origins.EveryRunHasOrigin | core/alteriom_hil/service.py:1499-1569 | in every state of every history, whatever runs or is about to was there at the start or was started by a plan, on what a demand of its queue asked |
| Origins.SideBySideShareNothing | core/alteriom_hil/service.py:1499-1569 | in every history, two runs on one worker, started by whichever plans, come from concurrent demands that declare no resource in common, hold just what each declares, and share no board |
| Dispatch.ClaimedOnce | core/alteriom_hil/jobstore.py:1584-1595 | where jobs are not sent back, a job is claimed at most once in a whole history |
| Dispatch.CancelOrClaim | core/alteriom_hil/service.py:978-1022 | a job cancelled while queued stays cancelled and is never claimed or granted, before or after |
| Dispatch.CancelEnds | core/alteriom_hil/service.py:978-1022 | a cancel reads the row at most twice; one that lost the job asks the run to stop or finds it finished (Cancelling.EndingsAreTrue says which) |
| Cancelling.CallsSayWhatTheyRead | core/alteriom_hil/service.py:978-1022 | over every history, wherever a call to cancel is, the row it read last put it there |
| Cancelling.EndingsAreTrue | core/alteriom_hil/service.py:978-1022 | a cancel refused read, at its last look, a row neither queued nor running; one that knows no job read no row; one that asked read it running; one that won read it queued |
| Cancelling.RunningEndsAsked | core/alteriom_hil/service.py:989-1001 | a look that finds the job running ends only in the run being asked to stop, without another look |
| Cancelling.AskedStays | core/alteriom_hil/service.py:991-993 | from then the job is asked to stop until that is forgotten |
| Cancelling.RequestsAreAsked | core/alteriom_hil/service.py:991-993 | and no job is asked to stop but by a cancel |
| Cancelling.ForgottenIsGone | core/alteriom_hil/service.py:978-1022 | forgetting a request drops that one and no other |
| Cancelling.RowsStay | core/alteriom_hil/service.py:986-988 | rows are never removed: a job unknown to a cancel had none before |
| Lifecycle.RowsGoAsExpected | core/alteriom_hil/service.py:978-1569 | over every history, each event changes a job's row exactly as submission, claim, cancellation, end and return do |
| Lifecycle.GrantsGoAsExpected | core/alteriom_hil/service.py:1553-1796 | over every history, each event changes the grant a job holds exactly as its record, settling on other boards and release do |
| Lifecycle.StartsAreTriedInOrder | core/alteriom_hil/service.py:1540-1554 | what a plan starts is tried for one by one, in its order: what has been tried and what is still to be is all of it |
| Lifecycle.PassTriesAll | core/alteriom_hil/service.py:1540-1569 | a pass that ends has tried to claim all its plan starts |
| Lifecycle.PassCanEnd | core/alteriom_hil/service.py:1499-1569 | wherever a history stands, the pass of the dispatcher can be brought to its end, whatever configuration it finds |
| Lifecycle.CallCanEnd | core/alteriom_hil/service.py:978-1022 | and so can every call to cancel |
| Service.DemandIsValid | core/alteriom_hil/service.py:1460-1484 | every demand made of a job is well-formed, its named boards sorted and each once; what is started from it is what Asking.StartsAreAsAsked says |
| Service.DemandsAreSound | core/alteriom_hil/service.py:1502-1529 | what the dispatcher plans for is exactly the queued jobs, each once, as well-formed demands |
| Asking.StartsAreAsAsked | core/alteriom_hil/service.py:1460-1540 | every run a pass decides to start is as its submission and profile ask: an exclusive profile has its whole worker, a run by family boards that meet every required need, a run that named boards or a rig has those, and only a concurrent profile runs beside others, with the resources it declares |
| Service.FarmService.Dispatch | core/alteriom_hil/service.py:1499-1569 | the queue read from the table, planned, and carried out: exactly the jobs the plan starts and no cancellation took meanwhile are granted, in its order; they and the cancelled leave the queue, all else stays; the farm stays safe |
| Service.FarmService.CarryOut | core/alteriom_hil/service.py:1540-1569 | a plan carried out after cancellations landed |
| Service.FarmService.ClaimAll | core/alteriom_hil/service.py:1540-1569 | the loop over the plan's grants |
| Service.FarmService.ClaimOne | core/alteriom_hil/service.py:1544-1554 | one claim and its grant |
| Service.FarmService.HoldBoards | core/alteriom_hil/service.py:1782-1792 | only a grant that is alone and not whole-rig changes its boards |
| Service.FarmService.Release | core/alteriom_hil/service.py:1794-1796 | exactly that job's grant goes |
| Locks.ExclusionHolds | core/alteriom_hil/service.py:1571-1587 | in every reachable state an exclusive holder is alone and no board lock has two holders |
| Locks.SomeoneMoves | core/alteriom_hil/service.py:1571-1587 | following who waits for whose board ends with a job that can go on |
| Locks.NoDeadlock | core/alteriom_hil/service.py:1571-1587 | while any job is unfinished some job can step |
| Locks.HistoriesEnd | core/alteriom_hil/service.py:1571-1587 | without arrivals every history has as many steps as there was work, less what is left |
| Locks.EveryJobGetsThrough | core/alteriom_hil/service.py:1571-1587 | a history that cannot go on has seen every job through |
| Locks.RunTogetherIff | core/alteriom_hil/service.py:1571-1587 | two jobs can come to run at the same time, in some history, if and only if both share the rig with no board in common |
| Locks.TakesAndGives | core/alteriom_hil/service.py:1571-1587 | a job that shares the rig takes its lock and one for each of its boards, in id order, before it runs; one that does not takes the rig lock alone; each gives back as many as it took |
| Throttle.AddressThrottle.TooMany | core/alteriom_hil/service.py:194-209 | the verdict and the new book |
| Throttle.AddressThrottle.Sweep | core/alteriom_hil/service.py:211-214 | exactly the addresses not seen inside the window go |
| Throttle.SweepLosesNothing | core/alteriom_hil/service.py:211-214 | a sweep loses nothing that still counts |
| Throttle.NeverRefusesEarly | core/alteriom_hil/service.py:194-209 | whatever the allowances and in whatever order the times, a refusal means that many attempts were let through within the window |
| Throttle.ListsStayShort | core/alteriom_hil/service.py:174-214 | in whatever order the times, no list is longer than the largest allowance its address is asked with |
| Throttle.RefusesExactly | core/alteriom_hil/service.py:174-214 | where each address keeps to one allowance and times come in order, refused if and only if that many attempts were let through within the window; no list longer than the allowance |
| Throttle.SweepForgetsTheRest | core/alteriom_hil/service.py:194-214 | every so many attempts the book forgets, of all but the address that asks, just those of which nothing was let through within the window |
| Throttle.LowerIsExact | core/alteriom_hil/service.py:194-209 | an address asked with an allowance no larger than any before is refused if and only if that many of its attempts were let through within the window |
| Throttle.SmallerForgets | core/alteriom_hil/service.py:202-206 | for every two allowances, the larger positive, a course on which an attempt is let through that the log would refuse |
| Throttle.AgreesIffSteady | core/alteriom_hil/service.py:174-214 | for the allowances each address may be asked about with, the book agrees with the log on every course in order of time if and only if no two of one address differ with the larger positive, or the window is empty |
| Throttle.OutOfOrderForgets | core/alteriom_hil/service.py:194-209 | for every allowance of two or more, a course with times out of order on which an attempt is let through that the log would refuse |
| BusyTime.SpansAreBusy | core/alteriom_hil/service.py:4488-4497 | the clipped spans cover exactly the instants in the window at which a job held the rig |
| BusyTime.MergeAll | core/alteriom_hil/service.py:4498-4504 | merging covers the same instants with spans that do not touch |
| BusyTime.Split | core/alteriom_hil/service.py:4508-4519 | a span split at midnights gives each day its own instants, and the split ends |
| BusyTime.AddUp | core/alteriom_hil/service.py:4505-4519 | the sums over the merged spans |
| BusyTime.BusySeconds | core/alteriom_hil/service.py:4484-4519 | the total is the number of busy instants if and only if no job counted begins after now; each day's is exact |
| BusyTime.LateIsNegative | core/alteriom_hil/service.py:4488-4519 | a job that begins after now and ends later adds a negative span and no busy instant |
| BusyTime.WindowIs | core/alteriom_hil/service.py:4430-4440 | the window begins at the local midnight that many days back, today counted |
| BusyTime.WindowAddsUp | core/alteriom_hil/service.py:4430-4440 | the days sum to the busy instants, no more than the window |
| StorageCache.Storage.StorageChanged | core/alteriom_hil/service.py:4251-4256 | the new generation, and stale |
| StorageCache.Storage.MeasureIfStale | core/alteriom_hil/service.py:4285-4306 | starts a walk if and only if stale and none is in flight |
| StorageCache.Storage.EndWalk | core/alteriom_hil/service.py:4273-4283 | figures stored, fresh only if nothing changed since the walk began |
| StorageCache.FreshMeansFresh | core/alteriom_hil/service.py:4251-4306 | over every interleaving, never two walks, and figures are marked fresh if and only if their walk began after the latest change |
| StorageCache.FreshAndWholeIff | core/alteriom_hil/service.py:4251-4306 | read off the course of events alone: fresh if and only if nothing was deleted since the latest walk to end began, fresh and whole if and only if that walk also got through |
| StorageCache.FiguresAreLatest | core/alteriom_hil/service.py:4273-4283 | the figures shown are those of the latest walk to end, fresh or not |
| StorageCache.LookStartsIff | core/alteriom_hil/service.py:4285-4306 | read off the events: a look starts a walk if and only if none is under way and figures are asked for anew or no walk ended in the last 300 seconds with nothing deleted since it began |
| StorageCache.PartialFiguresCanBeFresh | core/alteriom_hil/service.py:4273-4283 | partial figures can be marked fresh |
| StorageCache.MeasuredUntilAThreadFails | core/alteriom_hil/service.py:4285-4306 | until a thread fails to start, stale figures find or start one walk; after that none ever starts |
| StorageCache.CanBecomeFreshIff | core/alteriom_hil/service.py:4251-4306 | figures that are not fresh can still come to be fresh and whole if and only if no thread has failed to start |
| Prune.NewestFirstIs | core/alteriom_hil/artifact_store.py:563 | the sort keeps the entries and puts newest first |
| Prune.PlaceIsRank | core/alteriom_hil/artifact_store.py:563-564 | an entry's place in the stable newest-first order is its rank |
| Prune.GroupByProfile | core/alteriom_hil/artifact_store.py:557-560 | each profile's group is its bundles that may go, as listed |
| Prune.ChooseFrom | core/alteriom_hil/artifact_store.py:562-567 | of a group, exactly what ranks beyond the kept and is old enough |
| Prune.SelectPrunable | core/alteriom_hil/artifact_store.py:534-569 | chosen if and only if unpinned, unheld, beyond the newest kept of its profile and before the cutoff; oldest first; refused without a rule |
| Prune.PrunableIff | core/alteriom_hil/artifact_store.py:555-567 | read off the store: chosen if and only if nobody pinned it, no job holds it, it was last used longer ago than that, and that many bundles of its profile that may go were used later, or as late and are listed before it |
| Prune.KeepsThatMany | core/alteriom_hil/artifact_store.py:557-567 | with a number to keep alone, exactly that many of each profile's bundles that may go stay, or all where there are fewer |
| Prune.ConfirmAnswersForAll | core/alteriom_hil/service.py:4093-4107 | the ids shown split into selected, spared and gone; spared are those still there the rules no longer choose |
| Prune.ConfirmDeletesWhatWasShown | core/alteriom_hil/service.py:4093-4127 | confirming a preview before anything changed selects exactly what it listed, in its order |
| ArtifactLock.DeletesOnlyWhatMayGo | core/alteriom_hil/service.py:4084-4190 | over every interleaving, a bundle being deleted is neither pinned nor held |
| ArtifactLock.NothingLandsBetween | core/alteriom_hil/service.py:3979-3997 | while a prune is answerable for the lock no pin, reuse, delete or other prune gets in |
| ArtifactLock.ReleasedOnce | core/alteriom_hil/service.py:4090-4220 | the lock is released exactly once on every path, by its holder |
| ArtifactLock.WhatIsDoneLasts | core/alteriom_hil/service.py:3979-4190 | a bundle pinned stays until unpinned, one reused or published until its job ends, and one deleted is gone until published again |
| ArtifactLock.DeletesInOrder | core/alteriom_hil/service.py:4129-4190 | a prune calls for what it chose one by one, in that order and none twice |
| ArtifactLock.PruneCanEnd | core/alteriom_hil/service.py:4084-4220 | wherever a course of events stands, a prune can give up or be brought to its end, its deletion with it, by its own steps |
| Quarantine.Summarise | core/alteriom_hil/service.py:1951-1966 | the loop keeps, per board and check, the first of the worst verdicts |
| Quarantine.PerBoardSummarises | core/alteriom_hil/service.py:1951-1966 | every board and check of the results is there, at its worst |
| Quarantine.RedOnceIsRed | core/alteriom_hil/service.py:1960-1966 | a check is red if and only if it was ever red; skipped only if always skipped |
| Quarantine.FirstRedStands | core/alteriom_hil/service.py:1960-1966 | of several red verdicts the first stands, failure and error weighing the same |
| Quarantine.RetryStaysRed | core/alteriom_hil/service.py:1960-1966 | a check that failed and then passed on a retry stands as it failed |
| Quarantine.FailureIsComparative | core/alteriom_hil/service.py:1969-2007 | a board has failed if and only if another board passed a check it failed, wiring aside; passed if and only if nothing failed |
| Quarantine.BoardHolds.RecordBoardHealth | core/alteriom_hil/service.py:1931-2010 | each board's row is this run's, then those of other runs; the holds follow from what is kept, board by board |
| Quarantine.BoardHolds.RecordOutcomes | core/alteriom_hil/service.py:1999-2008 | the loop writes one row for each board the run looked at and no other |
| Quarantine.RunsStayOnce | core/alteriom_hil/jobstore.py:1122-1140 | however often runs look at a board, each run has one row for it |
| Quarantine.CondemnedByComparison | core/alteriom_hil/service.py:1969-2062 | a board the run quarantines failed, in that run, a check another board passed if and only if the run was conclusive about it |
| Quarantine.BoardHolds.ApplyQuarantine | core/alteriom_hil/service.py:2033-2062 | exactly the boards condemned are held and exactly those cleared released; every other hold is as it was |
| Quarantine.CountStreak | core/alteriom_hil/service.py:2047-2055 | the loop counts the newest failures in a row, passing over inconclusive rows |
| Quarantine.StreakIs | core/alteriom_hil/service.py:2047-2055 | the count reaches k if and only if the first k conclusive rows are failures |
| Quarantine.QuarantinedIff | core/alteriom_hil/service.py:2045-2062 | an unheld board is quarantined if and only if its newest row is this job's and the newest conclusive rows are failures |
| Quarantine.QuarantinedByRunIff | core/alteriom_hil/service.py:1999-2062 | a run quarantines an unheld board if and only if it did not pass it and its verdict, unless inconclusive, with the conclusive rows of other runs before it, starts with enough failures |
| Quarantine.ReleasedIff | core/alteriom_hil/service.py:1999-2044 | after a run over a board its hold is gone if and only if it was a quarantine and nothing in this run was red; otherwise it is unchanged |
| Quarantine.InconclusiveCanCondemn | core/alteriom_hil/service.py:2047-2056 | an inconclusive run can quarantine a board on older failures of other runs, one row each, if and only if the streak asked for is shorter than the history kept |
| Spki.DerItem | core/alteriom_hil/providers.py:489-505 | contents lie after the header and inside the data, or an error |
| Spki.SpkiRsaBits | core/alteriom_hil/providers.py:508-529 | on any bytes a size no larger than the data holds, or the error; nothing is read out of bounds |
| Spki.ItemAt | core/alteriom_hil/providers.py:489-505 | wherever an encoded item stands it is read as written |
| Spki.RoundTrip | core/alteriom_hil/providers.py:508-529 | for every modulus and exponent whose lengths take at most four octets, the size read is the modulus's bit length |
| Spki.AcceptsIff | core/alteriom_hil/providers.py:489-529 | of all octet strings, exactly the RSA public keys are accepted, each with the bit length of its modulus |
| Spki.BitLengthIs | core/alteriom_hil/providers.py:529 | the bit length is the least number of bits the number fits in |
| Spki.TruncatedIsRefused | core/alteriom_hil/providers.py:492-504 | an encoding cut short anywhere is refused |
| Message.Shorten | core/alteriom_hil/providers.py:368-382 | the loop ends, with the text its rounds define |
| Message.LongestIs | core/alteriom_hil/providers.py:375 | the line that gives way is the first of the longest but the last |
| Message.RoundShortens | core/alteriom_hil/providers.py:374-381 | every round makes the whole strictly shorter |
| Message.RoundTakesFromLongest | core/alteriom_hil/providers.py:374-381 | a round changes only the first of the longest lines but the last: it goes if it has at most 16 characters, is clipped otherwise, and gives up all that is too much where it can |
| Message.ClippedKeeps | core/alteriom_hil/providers.py:380-381 | a clipped line gives up no more than what is too much and keeps its beginning, 15 characters at least, white space at the cut aside |
| Message.NonEmptyKeeps | core/alteriom_hil/providers.py:371 | what is shortened is every line that is not empty, in order |
| Message.LinesKeepTheirOrder | core/alteriom_hil/providers.py:374-381 | the lines left keep their order, each whole or abridged, and include the last |
| Message.MessageFits | core/alteriom_hil/providers.py:368-382 | never over the limit; what fits is left alone |
| Message.TagStaysWhole | core/alteriom_hil/providers.py:368-382 | a last line that is not empty and fits ends the message whole |
| Message.OneText | core/alteriom_hil/providers.py:368-382 | the text depends on the lines and the limit alone |

## Left out

- The wording of wait reasons (`_explain`, `_shortfall`, `_held`): reasons are values that carry the run or board they name; that they are true is Withheld.ReasonIsTrue.
- Labels, kinds, commit ids and start times of grants and demands, which decide nothing.
- Everything that reads the farm for `_dispatch` (the inventory, holds, workers online): a plan is made from any inventory, limits and profiles.
- JobQueue.QueueIsList: not for jobs sent back to the queue, which rejoin by age (JobQueue.RequeueRejoins says where).
- The portal's leases: a portal may send a job without a grant back to the queue at any time, and a cancel of a leased job is not followed beyond its request.
- Dispatch.CancelEnds: not for a portal, where a job sent back can be lost and won again without end.
- Which job's grant a job end releases first, its row or its grant: both orders happen.
- The exceptions that end a pass of the dispatcher early: what it had not claimed stays queued.
- Service.FarmService.Dispatch: of what may happen during a pass, cancellations before the claims; the rest is in Dispatch.FarmStaysSafe.
- Dispatch.FarmStaysSafe: not for a node, which also records the grants it leases, past its dispatcher (rig/alteriom_hil/farm_node.py:715).
- A portal with no worker to give work to, which plans nothing, and its grants without a worker, sent back at once.
- Fairness.FarmBoundedWaiting: not for a demand barred by a reserved board it names (Waiting.BarredNeverStarts) or one for a rig that is away, which wait as long as that lasts.
- Operating-system locks are granted in any order: Locks.NoDeadlock is progress of some job, not fairness to each.
- BusyTime.BusySeconds: exact instants; the rounding of seconds for display is not modelled, nor the other statistics.
- StorageCache: what a walk finds on disk; only which walk it was and whether it got through.
- Filesystem work of a prune (`remove`, dangling links): a deletion removes a bundle or fails.
- Of thread start failures in a prune, only the one the code catches, which deletes inline.
- The parsing of JUnit names into board and check, and nodes, which keep verdicts without judging them.
- Quarantine.BoardHolds.RecordBoardHealth: rows are kept newest first; that the clock makes this run's the newest is assumed.
- Spki: PEM text, and fields after the modulus, which the reader does not look at either.
- Keys, sign-in beyond the throttle, HTTP handlers, configuration checks, notifications, backup and restore: input and output, or long lists of single checks.

# Zth: a verified model of the fiber scheduler and its containers

Zth is a library for cooperative fibers. A `Worker` runs fibers in round-robin order from a circular
`List`. A `Waiter` fiber ends naps and timed blocks from a `SortedList`, which is an intrusive AA tree.
`Mutex`, `Semaphore` and `Mailbox` hold fibers in wait queues. A `PollerServer` shares one poll set
among many clients, and `fsm14.h` compiles lists of symbolic transitions to index tables and runs them.

This project models these parts in Dafny and proves what they are for. Each module has two layers where
the source changes things in place. Functions on values say what an operation does, and the deep results
are lemmas about them over every input or every run. Classes and methods work on the fields, links and
loops as the source does, and are proved against those functions.

| file | component | main results |
|---|---|---|
| `Common.dfy` | sequences, powers of two | what several files use |
| `AaTree.dfy` | levels, order and contents of the AA tree | insertion and deletion keep every rule that `check` asserts; any run refines a finite set; levels fit 8 bits |
| `SortedList.dfy` | the same operations on links, levels, head and size | the heap spells the tree of the model at every step |
| `CircularList.dfy` | `List` | the links are one cycle over exactly the members; `rotate` is the cyclic shift |
| `Fiber.dfy` | the states of a fiber | what sequences of calls can and cannot do |
| `Scheduler.dfy` | fibers, queues, timer, timed blocks | every fiber is in the one container of its state; bounded waiting; a timed block ends exactly once; exactly which answers are true |
| `ListSet.dfy`, `Worker.dfy` | the worker on linked lists | `schedule`, `add`, `release`, `block` and the others on links are the steps of the scheduler's model |
| `Waiter.dfy` | the timer's drain loop, on the sorted list | it terminates, handles exactly the overdue entries in order and leaves none |
| `TimedBlock.dfy` | `block_` with a timeout, on the links of both | the worker's lists and the waiter's tree stay in step with the scheduler's model |
| `Mutex.dfy`, `Semaphore.dfy`, `Mailbox.dfy` | synchronizers | exclusion, conservation, delivery, and exactly when no waiter is stranded |
| `Poller.dfy` | `PollerServer`, `PollerClient::poll` | the two arrays stay paired; every event reaches its client; a failed migration changes nothing |
| `Fsm.dfy`, `FsmRun.dfy` | FSM compiler and interpreter | compilation accepts exactly the well-formed lists and preserves their meaning; invariants of every run |
| `Time.dfy`, `Clock.dfy`, `Stack.dfy` | fixed-width arithmetic | exact sums up to saturation, clock scaling within one nanosecond, stack and guard pages inside the allocation |

Steps between scheduling points are atomic, since fibers only switch where they call the scheduler. A
run is any sequence of such steps by any fibers. Whatever the environment decides (allocation addresses,
failing allocations, answers of polled functions and of guards, the current time) is a parameter.
Conditions that the source only asserts are preconditions, or a `None` where a run can reach them.

Some claims that one might expect do not hold of the code. The model follows the code. Each of these has
an input that shows it, and the exact condition under which the claim holds:

- A semaphore can leave a waiter in the queue next to a unit that it could take. Some run does so if and
  only if requests for one unit and requests for three or more are mixed (`Semaphores.StrandsIff`).
- `Mailbox::m_assigned` is never cleared, so a second taker can block on a full mailbox. With one taker
  it cannot (`Mailboxes.NeverStrandsIff`).
- `PollerServer::remove` can mispair its arrays when the mirror is behind (`Pollers.RemovePairedIff`).
- The sum of two normal intervals can have a nanosecond field of a full second (`Time.NormalSum`).
- A push on an FSM row without a target stores the state before the current one
  (`FsmRun.PushStoresIff`, and over whole runs `FsmRun.HeadsStackedIff`).
- A suspended fiber can be made runnable again if and only if it did not wait when it was suspended
  (`Fibers.RunnableAgainIff`). One that waited is refused by the assertion of `Worker::add` after its
  wakeup; without assertions, `Fiber::run` answers EINVAL and `schedule` aborts.
- `blockUntil` and `blockFor` are documented to answer true exactly if the fiber was unblocked by
  request. That holds of an answer if and only if the deadline lay in the future, since both answer true
  at once when it did not (`Scheduler.AnswersTrueIff`).

The run-time check of the sorted list accepts every valid tree (`AaTree.ValidChecks`), and among the
trees with wrong levels none (`AaTree.CheckIffBalanced`). It is no test of the order. It only compares a
node with its children, and it joins the two comparisons with a right child by "or". So a right child
passes although it is out of order if and only if it has the same time and no larger address, or an
earlier time and a larger address (`AaTree.OverlookedIff`). A tree is in order if and only if it passes,
has no such right child, and the neighbours in the order that are not parent and child are in order
(`AaTree.InOrderIff`). Setting a new interval of an entry in the list can give a tree that is out of order
and passes (`AaTree.CheckMissesOrder`). That insertions and erasures keep the order is proved without the
check.

## Model

| member | source | states |
|---|---|---|
| `AaTree.CheckIffBalanced` | include/libzth/list.h:707-713 | the level assertions of the run-time check hold if and only if the tree obeys the level rules of an AA tree |
| `AaTree.ValidChecks` | include/libzth/list.h:691-715 | no assertion of the check, on levels or on keys, fails on a balanced tree in order |
| `AaTree.CheckMissesOrder` | include/libzth/list.h:702-705 | after two legal insertions, a later timeout for the first entry, as `setInterval` gives it, makes a tree that is out of order and passes the check, for any two nodes and times |
| `AaTree.OverlookedIff` | include/libzth/list.h:702-705 | exactly which keys out of order pass as a node and its right child |
| `AaTree.InOrderIff` | include/libzth/list.h:697-705 | any tree is in order if and only if it passes the assertions on keys, has no right child that they overlook, and the neighbours that they do not compare are in order |
| `AaTree.InsertBalanced` | include/libzth/list.h:578-597 | inserting keeps every level rule; the root rises by at most one level, and only from a horizontal pair |
| `AaTree.RebalanceBalanced` | include/libzth/list.h:628-634 | one level decrease, three skews and two splits repair every shape that a deletion below can leave, to at most one level lower |
| `AaTree.RebalanceRightSunk` | include/libzth/list.h:628-634 | the case of a right subtree that sank, through up to two skews |
| `AaTree.RebalanceLeftSunk` | include/libzth/list.h:628-634 | the case of a left subtree that sank below a right child one level lower |
| `AaTree.RebalanceLeftSunkHorizontal` | include/libzth/list.h:628-634 | the case of a left subtree that sank beside a right neighbour on the root's level, which needs all five steps |
| `AaTree.DeleteBalanced` | include/libzth/list.h:599-636 | deleting any element from any valid tree gives a valid tree that can stand in the same place |
| `AaTree.InsertRefines` | include/libzth/list.h:578-597 | in order, the tree after insertion is the sorted sequence with the element at its place |
| `AaTree.InsertSortedKeeps` | include/libzth/list.h:578-597 | that sequence is ordered by (timeout, address) and has no element twice |
| `AaTree.InsertSortedHolds` | include/libzth/list.h:578-597 | and it holds exactly the old elements and the new one |
| `AaTree.DeleteRefines` | include/libzth/list.h:599-636 | in order, the tree after deletion is the old sequence without the element, across predecessor and successor replacement |
| `AaTree.ContainsRefines` | include/libzth/list.h:521-537 | the search finds an element if and only if the tree holds it |
| `AaTree.HeightBound` | include/libzth/list.h:561-576 | a root on level L stands on at least 2^L - 1 elements, and no path has more than 2L of them |
| `AaTree.LevelFits` | include/libzth/list.h:561-576 | with fewer than 2^64 elements no level exceeds 64, so the 8-bit level never overflows |
| `AaTree.RunRefinesSet` | include/libzth/list.h:471-496 | after any legal run of insertions and erasures the tree passes `check` and lists exactly the plain set, in order |
| `SortedLists.SkewInPlace` | include/libzth/list.h:546-559 | relinking makes the heap spell the skewed tree, on the same nodes |
| `SortedLists.SplitInPlace` | include/libzth/list.h:561-576 | relinking makes the heap spell the split tree, and the incremented level fits |
| `SortedLists.DecreaseLevelInPlace` | include/libzth/list.h:669-681 | lowers the level of a node and of its right neighbour as the model does |
| `SortedLists.RebalanceInPlace` | include/libzth/list.h:628-634 | the sequence of repairs on links is the rebalancing of the model, and no level leaves 8 bits on the way |
| `SortedLists.SortedList.Insert_` | include/libzth/list.h:578-597 | the recursive insertion on links is the insertion of the model, with the cached head kept at the minimum |
| `SortedLists.SortedList.Delete_` | include/libzth/list.h:599-636 | the recursive deletion on links is the deletion of the model, and takes exactly one node out |
| `SortedLists.SortedList.Insert` | include/libzth/list.h:471-482 | a valid list stays valid; its contents gain the element in order, its size grows by one, its head is the least element |
| `SortedLists.SortedList.Erase` | include/libzth/list.h:484-496 | a valid list stays valid and loses exactly the element, whose links and level are cleared |
| `SortedLists.SortedList.Contains` | include/libzth/list.h:521-537 | the loop answers membership |
| `SortedLists.SortedList.Front` | include/libzth/list.h:539-543 | the cached head is the least element |
| `SortedLists.LowestNode` | include/libzth/list.h:638-646 | returns the first node in order |
| `SortedLists.HighestNode` | include/libzth/list.h:648-656 | returns the last node in order |
| `CircularLists.List.PushBack` | include/libzth/list.h:244-261 | one cycle over the old members and then the new one |
| `CircularLists.List.PushFront` | include/libzth/list.h:303-318 | one cycle over the new member and then the old ones |
| `CircularLists.List.PopBack` | include/libzth/list.h:263-283 | takes the last member out and clears its links |
| `CircularLists.List.PopFront` | include/libzth/list.h:320-340 | takes the first member out and clears its links |
| `CircularLists.List.Insert` | include/libzth/list.h:389-405 | the new member comes just before the iterator's position, in all three cases |
| `CircularLists.List.Erase` | include/libzth/list.h:423-437 | takes out exactly that member, wherever it is |
| `CircularLists.List.Rotate` | include/libzth/list.h:439-444 | the sequence is the cyclic shift that puts the member first |
| `CircularLists.List.Contains` | include/libzth/list.h:373-379 | the loop answers membership |
| `CircularLists.CycleRotates` | include/libzth/list.h:439-444 | a cycle stays a cycle wherever it is cut open |
| `CircularLists.FollowVisitsAll` | include/libzth/list.h:138-143 | k times `next` from any member is the member k places further, so a round visits each of them once |
| `Scheduler.StepKeeps` | include/libzth/worker.h:104-309 | every event, also when the run time is up, keeps each fiber in the one container of its state and every alarm truthful |
| `Scheduler.RunKeeps` | include/libzth/worker.h:104-309 | so it is in every world of every run: New, Ready, Running and Dead in the run queue, Suspended in the suspended queue, Waiting in one wait queue or the timer, and only the current fiber runs |
| `Scheduler.ScheduleKeeps` | include/libzth/worker.h:175-242 | whatever the operation before it left, `schedule` restores the invariant, through any number of dead fibers |
| `Scheduler.DeadNeverRuns` | include/libzth/worker.h:244-270 | a dead fiber is not the current one, and every step leaves it dead or removes it |
| `Scheduler.TimedBlockEndsOnce` | include/libzth/sync.h:443-461 | back in `block_`, in any run: the fiber was handed to the run queue once, the answer is false if and only if the alarm did it, the fiber is in no queue; then exactly its alarm clock leaves the list, if it still is in it |
| `Scheduler.NoDanglingAlarm` | include/libzth/sync.h:455-460 | in no world of any run does the waiter's list hold an alarm clock that is out of scope |
| `Scheduler.AtOnceIff` | include/libzth/sync.h:414-436 | the guards of `blockUntil` and of `blockFor`, on the fields of the interval, both mean that the deadline is not in the future |
| `Scheduler.AnswersTrueIff` | include/libzth/sync.h:410-461 | for every call in every run, the answer is true exactly when a request dequeued the fiber, if and only if the deadline lay in the future |
| `Scheduler.WrongAnswer` | include/libzth/sync.h:417-419 | a run in which a fiber is told so although nobody unblocked it |
| `Scheduler.TurnNeverRecedes` | include/libzth/worker.h:201-242 | past selections plus the position of a runnable fiber, less front insertions, never grows |
| `Scheduler.BoundedWaiting` | include/libzth/worker.h:201-242 | a fiber at position k is passed over at most k times plus once per front insertion, whatever else happens, as long as no fiber is preferred |
| `Fibers.SuspendedWaiterIsLost` | include/libzth/fiber.h:345-368 | whatever is called on a fiber after it was suspended while waiting, it waits and is going to wait, and `run` answers EINVAL |
| `Fibers.RunnableAgainIff` | include/libzth/fiber.h:345-379 | some sequence of calls makes a suspended fiber ready if and only if it did not wait |
| `Fibers.OnlyWakeupEndsWait` | include/libzth/fiber.h:289-379 | of all calls only `wakeup` ends an ordinary wait, and only `suspend` spoils it |
| `Fibers.UndoneIff` | include/libzth/fiber.h:289-379 | for which states `resume` undoes `suspend`, and `wakeup` undoes `nap` |
| `ListSets.ListSet.Put` | include/libzth/list.h:244-318 | a link goes to an end of one of several lists over the same links; the other lists stay as they are |
| `ListSets.ListSet.Drop` | include/libzth/list.h:423-437 | a link leaves its list, and is ready for another one |
| `ListSets.ListSet.TurnPast` | include/libzth/worker.h:217-217 | the list turns so that the member after the chosen one is first |
| `Workers.Worker.Add` | include/libzth/worker.h:104-121 | linking the fiber into one of the circular lists gives the queues that the model says |
| `Workers.Worker.Hatch` | include/libzth/worker.h:123-128 | a new fiber with a new link comes last in the run queue |
| `Workers.Worker.Release` | include/libzth/worker.h:161-173 | unlinking the fiber from the list of its state is its removal from the queue of the model |
| `Workers.Worker.Pick` | include/libzth/worker.h:211-217 | turning the links past the chosen fiber, wherever it is, is the rotation of the model's queue |
| `Scheduler.SwitchKeeps` | include/libzth/fiber.h:221-245 | from any world in which every fiber is in its container, a context switch gives one that meets the whole invariant: only the next fiber runs, or none when the worker takes over |
| `Workers.Worker.SchedulePass` | include/libzth/worker.h:201-241 | one pass of the reschedule loop on links; if it is not the last one, the run queue has become shorter; the answer is false exactly when what it chose runs already |
| `Workers.Worker.DoSchedule` | include/libzth/worker.h:175-242 | the loop ends, the lists then hold the queues of the recursive choice of the model, and the invariant holds; the answer is false exactly when the first choice, a fiber or the worker itself, runs already |
| `Workers.Worker.Cleanup` | include/libzth/worker.h:244-270 | a dead fiber is unlinked and forgotten; if it is the current one, the worker's own context takes over |
| `Workers.Worker.SuspendFiber` | include/libzth/worker.h:272-299 | for a fiber in any state: the suspend step and the invariant, with the reschedule if it was running; a waiting one only gets another next state |
| `Workers.Worker.ResumeFiber` | include/libzth/worker.h:301-309 | the resume step on links, for any fiber |
| `Workers.Worker.BlockOn` | include/libzth/sync.h:301-313 | the link moves from the run queue to the wait queue: the block step and the invariant |
| `Workers.Worker.WakeFirst` | include/libzth/sync.h:329-338 | the link at the head of the wait queue moves to the run queue: the step of waking the first waiter, and the invariant |
| `Waiters.NextPollIff` | include/libzth/waiter.h:127-138 | a failed poll of an overdue entry moves it to now or later if and only if its interval is not negative |
| `Waiters.Waiter.ScheduleTask` | src/waiter.cpp:59-64 | the entry is put into the sorted list at its place |
| `Waiters.Waiter.UnscheduleTask` | src/waiter.cpp:71-75 | whether or not it was in the list, the entry is not in it afterwards, and no other entry is touched |
| `Waiters.Waiter.Wakeup` | src/waiter.cpp:82-93 | the same, and a fiber is woken if and only if the entry was in the list and has one |
| `Waiters.UnscheduleUndoes` | src/waiter.cpp:59-75 | unscheduling an entry leaves the list as it was before it was scheduled |
| `TimedBlocks.Timer.Set` | src/waiter.cpp:59-64 | the waiter's list gains the entry of a fiber, and then is that of the model with this entry, with its time |
| `TimedBlocks.Timer.Clear` | src/waiter.cpp:71-75 | the entry of a fiber is not in the waiter's list afterwards, which is that of the model without it |
| `TimedBlocks.Blocker.Start` | include/libzth/sync.h:443-457 | `block_` on the worker's links and the waiter's tree until it switches: both then are those of the model after the timed block, with the alarm clock as the fiber's entry |
| `TimedBlocks.Blocker.Finish` | include/libzth/sync.h:459-460 | the rest of it: both are those of the model after the end of the block, the alarm clock is not in the tree, and the answer is that of the model |
| `Waiters.Waiter.Poll` | include/libzth/waiter.h:81-84 | a plain entry is done when its timeout has passed, a polled one when its function says so; only the latter gets a new timeout |
| `Waiters.Waiter.HandleFirst` | src/waiter.cpp:158-175 | one iteration handles the least entry: it leaves the list, or is put back at its next poll time |
| `Waiters.Waiter.Drain` | src/waiter.cpp:157-176 | the loop ends; it handles exactly the entries that were overdue, in order and once, so no nap ends early; it leaves no overdue entry; the final contents are given entry by entry |
| `Mutexes.StepKeeps` | include/libzth/sync.h:522-556 | each step keeps at most one holder, and a woken waiter whenever a free mutex has a queue |
| `Mutexes.NeverStranded` | include/libzth/sync.h:522-556 | so in every run, with any barging |
| `Mutexes.Mutex.LockPass` | include/libzth/sync.h:522-528 | one pass of the loop is the step; it succeeds when the fiber becomes the only holder |
| `Mutexes.Mutex.TryLockNow` | include/libzth/sync.h:530-537 | succeeds if and only if the mutex was free |
| `Mutexes.Mutex.Release` | include/libzth/sync.h:550-556 | the step that frees the mutex, by any fiber, and wakes the first waiter |
| `Semaphores.Conservation` | include/libzth/sync.h:635-676 | the count and the acquired units equal the initial and released ones, in every run below saturation; at saturation none are made |
| `Semaphores.SingleUnits` | include/libzth/sync.h:635-676 | with single-unit requests, a free unit and a queue imply a woken waiter that has not run |
| `Semaphores.RunKeeps` | include/libzth/sync.h:635-676 | the invariant of every run with requests of at most two units |
| `Semaphores.StrandingRunStrands` | include/libzth/sync.h:638-650 | for every request of three units or more, a run with it that strands a waiter |
| `Semaphores.NoSinglesRun` | include/libzth/sync.h:635-676 | without requests for single units, whoever waits asks for more than there is |
| `Semaphores.StrandsIff` | include/libzth/sync.h:635-676 | some run strands a waiter if and only if requests for one unit and for three or more are both allowed |
| `Semaphores.Semaphore.AcquirePass` | include/libzth/sync.h:635-651 | one pass of the loop, with the hand-on after success; it succeeds if and only if there were enough units |
| `Semaphores.Semaphore.WakeAll` | include/libzth/sync.h:340-351 | the loop wakes every waiter, and tells whether there were any |
| `Semaphores.Semaphore.Give` | include/libzth/sync.h:653-676 | the release step, saturating at the largest count |
| `Mailboxes.RunDelivers` | include/libzth/sync.h:1355-1476 | in every run the values put are those taken and then the one held, in order and once; a value put while takers waited goes to the longest-waiting one; an empty box with waiting putters has one on its way |
| `Mailboxes.StrandingRunStrands` | include/libzth/sync.h:1343-1346 | a run in which a second taker blocks on a full box |
| `Mailboxes.NeverStrandsIff` | include/libzth/sync.h:1343-1476 | no run leaves a taker on a full box if and only if there is at most one taker |
| `Mailboxes.Mailbox.TryPut` | include/libzth/sync.h:1362-1373 | one pass of the wait for an empty box, and the put with its hand-over |
| `Mailboxes.Mailbox.TryTake` | include/libzth/sync.h:1422-1437 | one pass of the wait for a value, and the take |
| `Pollers.RemoveContents` | include/libzth/poller.h:441-485 | a removal changes the registrations by exactly the one that goes |
| `Pollers.RemovePairedIff` | include/libzth/poller.h:457-476 | exactly when a removal keeps poll items and registrations paired |
| `Pollers.MispairedRemoval` | include/libzth/poller.h:459-476 | two registrations, a poll, a third registration and a removal that mispairs the arrays |
| `Pollers.RemoveMirrored` | include/libzth/poller.h:441-485 | with the mirror up to date, it stays so |
| `Pollers.RunConsistent` | src/poller.cpp:270-329 | over any interleaving of polling clients, with any failing additions, the arrays are paired and the server holds exactly the multiset of what the active clients have registered |
| `Pollers.RemoveAllCounts` | src/poller.cpp:313-315 | the removals at the end of a poll take out as many of each registration as there are, up to what was asked for, and no other |
| `Pollers.EventReachesClient` | include/libzth/poller.h:558-571 | an event at any index goes to an active client that registered that very pollable |
| `Pollers.PollerServer.AddItem` | include/libzth/poller.h:406-433 | appends a registration; if either array cannot grow, nothing changes |
| `Pollers.PollerServer.Search` | include/libzth/poller.h:443-455 | finds the last matching registration |
| `Pollers.PollerServer.RemoveItem` | include/libzth/poller.h:441-485 | the removal of the model; fails if and only if there is no such registration |
| `Pollers.DropUndoesAdd` | include/libzth/poller.h:490-502 | dropping as many registrations as were added undoes the additions, and dropping any number keeps the arrays paired |
| `Pollers.PollerServer.DoMirror` | include/libzth/poller.h:602-617 | success means that every registration has its poll item; failure stops at the first one that cannot be initialized, still paired |
| `Pollers.PollerServer.MigrateTo` | include/libzth/poller.h:367-398 | all registrations move in order; or, if memory cannot be reserved or an addition fails, both servers are exactly what they were |
| `Pollers.PollerServer.RollBack` | include/libzth/poller.h:380-386 | the removals in reverse restore the destination's exact sequence |
| `Fsm.ContiguousIffStartsFirst` | include/libzth/fsm14.h:1179-1185 | the compiler's test on each named row is contiguity of every state's rows |
| `Fsm.Find` | include/libzth/fsm14.h:1250-1271 | the index of the first row that names the state, 0 for no state, an error if there is none |
| `Fsm.Compile` | include/libzth/fsm14.h:1158-1198 | accepts a list if and only if its first row names a state, states are contiguous and targets exist; the result is the one table of that list, and each error is true |
| `Fsm.HeadNames` | include/libzth/fsm14.h:1176-1194 | a state's index is the only place where the table names it |
| `Fsm.CompiledMeans` | include/libzth/fsm14.h:1425-1446 | from a state's index the table takes the same row, or blocks with the same interval, as the list does, for any guards with side effects |
| `Fsm.SymbolicPicksFirst` | include/libzth/fsm14.h:1425-1446 | what the list does: the first enabled row of the state in order, or else the least interval of its rows |
| `FsmRun.StepMeans` | include/libzth/fsm14.h:1425-1492 | a step of the compiled FSM is a step of the list it was compiled from |
| `FsmRun.TableRunnable` | include/libzth/fsm14.h:1158-1198 | what the interpreter needs of a table holds of every compiled one |
| `FsmRun.RunKeeps` | include/libzth/fsm14.h:1425-1604 | in every run of every well-formed list: the current and the previous state and all stacked ones are the initial one or a state's index, the input flag means an input row, the entry guard fires at most once per entry |
| `FsmRun.PopReturnsToPush` | include/libzth/fsm14.h:1503-1555 | a pop that matches a push leaves the stack as it was, and returns to the state of the push if and only if the row had a target or the state before was the same |
| `FsmRun.PushStoresIff` | include/libzth/fsm14.h:1503-1510 | for every push in every run: exactly when it stores the current state, and when it stores one that can be popped |
| `FsmRun.HeadsStackedIff` | include/libzth/fsm14.h:1503-1555 | a run stacks only states that can be popped if and only if no row without a target pushes while the state before is the initial one |
| `FsmRun.TargetedPushes` | include/libzth/fsm14.h:1503-1555 | so in every run of a list in which each row that pushes has a target |
| `FsmRun.PushWithoutTarget` | include/libzth/fsm14.h:1503-1510 | the table of a well-formed list whose push without a target stores the initial state, which `pop` refuses |
| `FsmRun.BasicFsm.Enabled` | include/libzth/fsm14.h:2105-2112 | the answer and the effect of each kind of guard |
| `FsmRun.BasicFsm.HasInput` | include/libzth/fsm14.h:1674-1684 | the loop answers whether the symbol is registered |
| `FsmRun.BasicFsm.RemoveInput` | include/libzth/fsm14.h:1622-1635 | removes one occurrence by moving the last symbol into its place |
| `FsmRun.BasicFsm.StepNow` | include/libzth/fsm14.h:1425-1492 | the loop and the transition are the step of the model; the result is the least interval when blocked |
| `Time.AddExact` | include/libzth/time.h:324-356 | sums stay in range; they are exact on signed nanoseconds if and only if they do not saturate, but for the one coincidence spelled out |
| `Time.NormalSum` | include/libzth/time.h:335-338 | exactly when the sum of normal intervals is normal |
| `Time.HalfPlusHalf` | include/libzth/time.h:335-338 | half a second twice is not normal, though its value is right |
| `Time.BiggerIsOrder` | include/libzth/time.h:285-296 | the comparison is that of the values on every interval in range; among equal values, exactly which one counts as bigger |
| `Time.LaterRoundTrip` | include/libzth/time.h:678-684 | t + dt is refused exactly when it would be negative; otherwise (t + dt) - t has the value of dt |
| `Time.PassedIsTimeTo` | include/libzth/time.h:661-676 | the short cut computes the very fields of the general subtraction |
| `Time.TimeInterval.AddTo` | include/libzth/time.h:324-356 | the in-place addition, also to itself, with no intermediate overflow of a 64-bit time or a 32-bit long |
| `Clock.SplitQuotient` | src/time.cpp:42-49 | the true quotient is an exact high part and two low parts |
| `Clock.SplitFits` | src/time.cpp:42-49 | every intermediate value fits 64 bits when the true result does |
| `Clock.Scale` | src/time.cpp:37-52 | the nanoseconds are the exact floor, or one less exactly when the two remainders make up a whole |
| `Clock.LossOccurs` | src/time.cpp:42-49 | a tick count and time base at which one nanosecond is lost |
| `Stacks.MaskRoundsDown` | include/libzth/context/context.h:184-185 | masking with the complement of a power of two less one rounds down to a multiple of the page, for any word width |
| `Stacks.AllocSizeFits` | include/libzth/context/context.h:177-188 | the requested size is a multiple of the page and holds the request, the signal frame and three pages; the block can be aligned wherever it is |
| `Stacks.AlignedParts` | include/libzth/context/context.h:314-331 | where the whole pages of a block of any size at any address begin and end |
| `Stacks.Context.StackAlign` | include/libzth/context/context.h:306-336 | for a block of any size: the usable part is page aligned, leaves a page on both sides and less than two pages at each end |
| `Stacks.Context.InitStack` | include/libzth/context/context.h:177-199 | for any request, page and address: the usable stack is aligned, large enough, and with both guard pages inside the allocation |

## Left out

- Context switching backends (ucontext, sigaltstack, sjlj, winfiber, ARM): a switch is one atomic step.
- Real poll, clock, sleep and file operations: what they return is a parameter.
- `coro.h`, `async.h`, `future.h`: thin wrappers and compiler-generated control flow.
- Time as floating point, `Load`, `EventRate`.
- FSM operators that build rows, `dump`, `uml`, `Fsm::run` with its timeouts: syntax, printing, and a loop around `step`.
- User guards and actions that change the FSM itself: custom guards return any answer, custom actions act on the rest of the program.
- `Gate`, `Signal`, `small_vector`, `Optional`, `SharedPointer`, logging, configuration, the C API: would only add easy members.
- External `Fiber::kill`, and runs in which a waiting fiber is suspended: outside the runs of `Scheduler`; `Fibers.RunnableAgainIff` says what becomes of such a fiber.
- A fiber whose context cannot be created in `Fiber::init`.
- The two state fields of a fiber are a value in the worker's table, not fields that its methods update in place.
- Time slices, run times and `contextSwitchDisable`: a yield may or may not reach the scheduler, which the runs allow.
- `unblockAll` as an event of `Scheduler`: it is a sequence of `UnblockFirst`; its loop is in `Semaphores.Semaphore.WakeAll`.
- Timed `Mutex::trylock` and `Signal::wait` with a deadline that has passed.
- `Mailbox::wait` and `wait_empty` without the put or take that follows, and exceptions as values.
- `setPoller` while a poll is pending, clients that change their pollables while they poll, and `init` failing in the middle of a run (it is in `Pollers.PollerServer.DoMirror`).
- The assertion at the end of `mirror`, which fails together with `init`.
- The `user` field of `Listable`, and the build without assertions, in which an erased element keeps its old links.
- `Waiters.Waiter.Drain`: timeouts are integers there, and waking the fibers of finished entries is the `EndNap` and `Ring` of `Scheduler`.
- `Scheduler.RunKeeps`: time is an integer number of nanoseconds that never saturates, and the waiter's list is a map of naps and a set of alarm clocks; that the tree implements it is proved for timed blocks in `TimedBlocks`, and for single entries in `Waiters`.
- `TimedBlocks.Blocker.Finish`: that the entry is the one that `Start` put there, and in the list for no other fiber, is a precondition, since other fibers run in between.
- `Workers.Worker.Add`: as asserted by the source, the fiber is in no list and does not wait.
- `Workers.Worker.BlockOn`: the queue exists, as that of a synchronizer does.
- `Fsm.Compile`: states and symbols are strings, not pointers, and the index type is unbounded.
- `Stacks.Context.InitStack`: only the build with guard pages, without wrap-around of the address space.
- `Clock.Scale`: the true result fits 64 bits; the split into seconds and nanoseconds is left out.

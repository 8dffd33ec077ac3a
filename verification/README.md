# Verification of the DSWP pass

This project models an LLVM pass that implements Decoupled Software Pipelining, and the small C runtime its output runs
on, and proves what the pass is for: the worker threads it makes of a loop compute what the loop computes.

The pass takes one loop with one exit block. It builds a graph of dependences between the loop's instructions, condenses
it into strongly connected components, spreads the components over threads so that no dependence leads to an earlier
thread, gives each thread its own copy of the blocks that matter to it, and connects the threads by bounded channels: one
channel for each dependence that crosses threads. The runtime implements the channels as ring buffers guarded by a mutex
and two condition variables.

Instructions and blocks are numbers; what an instruction does is an arbitrary function of the registers it uses and of
memory; the number of threads and the capacity of the channels are parameters (at least one each).

## The results

* **Meaning is preserved** (`Pass.PassCorrect`). Take any loop that the pass turns into a plan, any semantics of its
  instructions, any capacity of the channels and any interleaving of the threads. If the dependence graph has an edge for
  every register use, and if any two instruction instances that conflict on memory are joined by a chain of instances in
  program order, each in the thread of the one before it or dependent on it, then the threads never deadlock, they stop after a
  number of steps that does not depend on the interleaving, and then memory and every register are what the sequential
  loop leaves and all channels are empty.
* **Also on the real queues** (`Pass.PassAtRuntime`, `Runtime.RunRefines`). The same holds when every send and receive is a call
  of the runtime that locks, waits, is woken, changes a ring buffer, signals and unlocks, in any interleaving of those
  parts, with spurious wakeups and barging: each such run is a run on atomic channels, and it never gets stuck.
  Conversely every run on atomic channels happens on the queues (`Realization.RunRealized`), and at any point of any run a
  thread that has come to a send or receive can make its whole call once the mutex is free, ahead of all who sleep or have
  been woken there (`Realization.CallCompletes`).
* **The pass establishes what this rests on** (`Pass.RunOnLoop`). The imperative phases are put together as in
  `runOnLoop`. From their contracts alone follows which loops stay as they are, that the threads come from a greedy
  schedule of the components, that the plan returned satisfies every condition of the theorem, and exactly when the pass
  gives up instead: `Pass.SurvivesIff` says so in terms of the edges and of who owns what.
* **Control closure comes for free** (`Assembly.ServedClosed`). The relevant blocks of a thread are found by looking one
  level up the dependence graph only. For the first thread that suffices (`Closure.FirstClosed`). A later one keeps the
  sources of the control edges into its blocks exactly when those into the direct sources of its instructions come from
  blocks of its own or of such sources (`Closure.EdgeClosedIff`; `Closure.ClosedIff` says so of control dependences), and every receive has a place exactly when all threads do that
  and terminators are fed likewise (`Assembly.ServedIff`). So a pass that ends has closed threads only.
* **It can fail** (`NestedIfs.SecondNotClosed`, `NestedPass.RunNested`). There is a loop with an `if` in an `if` for which the source's own
  latencies leave the scheduler no choice and the second thread is not closed: the pass ends with an error. With one more
  use of a register it gets through, and then all conditions of the theorem can be met, and every finished run of its
  threads leaves in memory the difference of the two values that it has loaded (`NestedPass.NestedSound`).
* **The control-dependence computation is complete** (`ControlDependence.ControlDepIsPeeled`, `BuildPdg.Builder.ControlEdges`): every
  dependence in the sense of Ferrante, Ottenstein and Warren is found, a branch's dependence on itself included, although
  the climb stops short of the nearest common post-dominator. What is found beyond these is characterised exactly, by the
  paths of the loop and the numbers of its blocks alone (`ControlDependence.PeeledDepIff`): for instance everything that
  post-dominates the target of a back edge, if the loop can also be left from there by a path that only rises
  (`ControlDependence.BackDep`). The numbering is the depth-first one: an edge that does not rise closes a cycle
  (`BuildPdg.NumbersRise`), and successors are searched in their order (`BuildPdg.FirstLeftFirst`).
* **Components** (`Scc.SccFinder.FindScc`) are exactly mutual reachability, numbered in topological order, and the graph
  between them is exact but for edges from component 0 to later components that contain a cycle, which the reads of unset
  numbers add.
* **The partition** (`Partition.Partitioner.ThreadPartition`) is the greedy schedule: each component taken is a ready one of greatest
  latency and goes into the thread being filled, which is left for the next one as soon as its own components reach the
  average (`Partition.GreedyThread`). It is total, queues every component once, never goes down, and is balanced.
* **The channels** (`Sync.Synchronizer.InsertSynchronization`, `Assembly.OneChannel`): exactly one for each edge and later thread
  with a copy of its target, numbered by edge and then by thread. **The final lists** (`Sync.Synchronizer.Cleanup`) are
  complete, with phi nodes at the top, the rest in order of execution and the terminator last.
* **The queue** (`Monitor.AlwaysFifo`, `Monitor.SleepersCovered`, `Monitor.NeverAllAsleep`): under every interleaving of any
  number of threads, with spurious wakeups and barging, it is a first-in first-out queue and no wakeup is lost.

## Layout

| files | what they hold |
|---|---|
| `Ir`, `PostDominance`, `Reachability` | instructions, blocks and loops; post-dominance; reachability |
| `DependenceGraph`, `PeeledLoop`, `ControlDependence`, `BuildPdg` | the dependence graph and its control half |
| `Scc`, `Partition` | components and threads |
| `Slicing`, `Split`, `Closure` | slicing the control flow to a thread's blocks |
| `Plan`, `Sync`, `Cleanup` | the code of the threads: copies, sends and receives in order |
| `Sequential`, `Conflicts`, `Trace` | the loop's own execution |
| `Pipeline` | the threads as a transition system |
| `Simulation`, `Channels`, `Execution`, `Steps`, `BlockEnd`, `Correctness` | the relation between the two, and the theorems |
| `Queue`, `Monitor`, `Runtime`, `Realization` | the runtime's queue, the threads on it, and what it leaves to the scheduler |
| `Handover`, `Assembly`, `Pass` | the phases put together |
| `NestedIfs`, `NestedPass` | one loop all the way through, with and without success |

The proof of preservation is a simulation. Each thread is at some visit of the one sequential block trace; its registers
hold what the sequential run has there; each channel holds the values that its source has in the visits between its two
ends; and memory is what the instruction instances executed so far leave when replayed in program order. The channels
carry a token for each dependence across threads, so conflicting instances take place in program order
(`Execution.ConflictOrder`), and so do those that a chain of such dependences joins. Deadlock freedom follows because of the threads that have not returned the one furthest
behind, by visit and then by number, can always move; sends and receives of one block may stand in different orders.

Where the code and the wish of its authors differ the model follows the code. Two places matter: the state -1 of `assigned`
("not assigned, but in queue") is never used, so that nothing is queued twice has to follow from the order of the
assignments; and `getNextNode` of a terminator is taken to be the end of its block's list, as the comment at
`DSWP_5.cpp:209-212` says, so the sends of a terminator stand behind it until cleanup.

## Model

| member | source | states |
|---|---|---|
| DependenceGraph.Pdg.AddEdge | DSWP_0.cpp:181-190 | an edge enters the table once, and the adjacency map and its reverse go on mirroring the table |
| DependenceGraph.OutEdgesMembers | DSWP_0.cpp:184-185 | the list of an instruction has exactly the table's edges that leave it |
| DependenceGraph.InEdgesMembers | DSWP_0.cpp:186 | the reverse map is the exact transpose, with the same types |
| DependenceGraph.AdjacencyNoDups | DSWP_0.cpp:182-186 | no adjacency list repeats an edge |
| DependenceGraph.MirrorAdd | DSWP_0.cpp:182-187 | one insertion keeps table, adjacency map and reverse map in step |
| BuildPdg.Builder.DfsVisit | DSWP_1.cpp:8-16 | the search in place leaves the visited set and the order that the depth-first search as a function gives |
| BuildPdg.Builder.Sort | DSWP_1.cpp:268-275 | the order is the one in which a depth-first search over all blocks leaves them |
| BuildPdg.VisitAllKeeps | DSWP_1.cpp:8-16 | a search lists what it enters, each block once, and leaves nothing open that was not open before |
| BuildPdg.PostOrderAll | DSWP_1.cpp:268-275 | the order lists every block of the loop exactly once |
| BuildPdg.VisitAllOrder | DSWP_1.cpp:8-16 | a block is left after the ends of its edges, but for those that lead back to it |
| BuildPdg.Builder.Number | DSWP_1.cpp:290-318 | every block gets its place counted from the end of the order as number, and both its dummy copies are listed |
| BuildPdg.NumbersRise | DSWP_1.cpp:290-318 | an edge between blocks leads to a larger number or closes a cycle |
| BuildPdg.FirstLeftFirst | DSWP_1.cpp:8-16 | successors are searched in their order: up to the first one listed the search leaves only what that one leads to |
| BuildPdg.FirstBranchLast | DSWP_1.cpp:268-318 | so whatever the header's first successor does not lead to has a smaller number than that |
| BuildPdg.Builder.Switches | DSWP_1.cpp:363-427 | the two switches built for a block lead exactly where the peeled graph says |
| BuildPdg.Builder.Branches | DSWP_1.cpp:352-430 | all switches together are the peeled graph |
| PeeledLoop.EdgeCopies | DSWP_1.cpp:395-425 | in the peeled graph the top copy of a block leads to the top copy of a successor exactly when the numbers rise and to its bottom copy exactly when they do not; the bottom copy leads to bottom copies only |
| PeeledLoop.PeeledUsable | DSWP_1.cpp:390-427 | if every block reaches the exit, every dummy block reaches the dummy exit |
| PeeledLoop.TopsIncrease | DSWP_1.cpp:397-400 | along a path inside the top half the numbers strictly increase |
| PeeledLoop.BottomStays | DSWP_1.cpp:395-425 | no path leads from the bottom half back to the top half |
| ControlDependence.ControlDepIsPeeled | DSWP_1.cpp:390-427 | every control dependence of the loop, of a branch on itself too, is a dependence of the peeled graph |
| ControlDependence.SelfDep | DSWP_1.cpp:397-400 | a branch that is control dependent on itself is caught by the top half |
| ControlDependence.PeeledDepHasBranch | DSWP_1.cpp:453-493 | conversely a dependence found comes from a block with a successor that the dependent block post-dominates |
| ControlDependence.PeeledDepIff | DSWP_1.cpp:390-493 | exactly which dependences are found, said of the loop's own paths: through a successor the dependent block is met on all ways to the exit, or on all while the numbers rise, or on all after that, and from the branch itself it is not |
| ControlDependence.BackDep | DSWP_1.cpp:397-400 | whatever post-dominates the target of an edge that does not rise is found to depend on its source, if from there the loop can be left by a path that only rises |
| BuildPdg.ClimbStep | DSWP_1.cpp:474-490 | one step up the post-dominator tree leaves exactly the current block behind |
| BuildPdg.ClimbEnd | DSWP_1.cpp:465-474 | the climb up to the nearest common post-dominator has left behind all that does not post-dominate the branch |
| BuildPdg.FromAllIsPeeled | DSWP_1.cpp:453-493 | climbing from every edge of every dummy block finds exactly the peeled dependences |
| BuildPdg.Builder.AddBlock | DSWP_1.cpp:476-487 | adds an edge from the branch to each instruction of the dependent block and nothing else |
| BuildPdg.Builder.Climb | DSWP_1.cpp:459-492 | adds exactly the control edges owed to one edge of the dummy graph |
| BuildPdg.Builder.ControlEdges | DSWP_1.cpp:453-493 | the dependence graph gains exactly the control edges of the peeled graph |
| Handover.ControlEdgesComplete | DSWP_1.cpp:453-493 | so every control dependence of the loop is an edge from the terminator to every instruction of the block |
| Scc.SccFinder.DfsForward | DSWP_2.cpp:42-62 | the search keeps its invariant and closes everything it opens |
| Scc.SccFinder.SearchForward | DSWP_2.cpp:14-22 | the finishing order: what reaches another has a member of its component listed no earlier |
| Scc.SccFinder.DfsReverse | DSWP_2.cpp:64-101 | a search from a root numbers its component and records the edges it meets, those from unset numbers as coming from 0 |
| Scc.TreeIsComponent | DSWP_2.cpp:30-36 | a tree of the second search is one component |
| Scc.TreeRecorded | DSWP_2.cpp:72-89 | after it exactly the edges owed up to its number are recorded |
| Scc.SccFinder.SearchReverse | DSWP_2.cpp:30-37 | every instruction gets a number and the recorded graph is exact |
| Scc.SccFinder.FindScc | DSWP_2.cpp:10-40 | equal numbers are mutual reachability; members are listed once; numbers rise along edges; the component graph and its converse are exact but for edges 0 to k where k holds a cycle |
| Handover.ControlByBlocks | DSWP_1.cpp:453-493 | a control edge comes from a terminator and leads to every instruction of its block, if no edge before was one |
| Pass.TreesExist | DSWP_1.cpp:448-450 | what is expected of the post-dominator analyses can be met for every loop whose blocks reach the exit |
| Handover.SingleComponent | DSWP_0.cpp:157-161 | one component means that everything depends on everything |
| Partition.TakeKeeps | DSWP_3.cpp:53-79 | taking a component makes none ready but its dependents, and none of those is in the queue already |
| Partition.AllDone | DSWP_3.cpp:52 | an empty queue means that every component has a thread |
| Partition.LastLoad | DSWP_3.cpp:31-85 | what is left for the last thread is at most the average plus the remainder |
| Partition.Partitioner.Latencies | DSWP_3.cpp:10-25 | each component's latency is the sum over its instructions and the total is the sum of the components' |
| Partition.Partitioner.Release | DSWP_3.cpp:57-78 | every dependent whose parents all have threads is queued, once |
| Partition.TopIsBest | DSWP_3.cpp:53 | the top of the queue is a component of greatest latency among all that can be scheduled |
| Partition.GreedyThread | DSWP_3.cpp:80-85 | a component goes where the one taken before it went, unless that thread's components have reached the average and it is not the last, and then to the next thread |
| Partition.GreedyBest | DSWP_3.cpp:45-53 | of two components that could be taken, one of greater latency is taken first |
| Partition.TakenStep | DSWP_3.cpp:53-85 | taking it into the thread being filled continues the greedy schedule |
| Partition.Partitioner.Take | DSWP_3.cpp:53-78 | takes a component of greatest latency that was unassigned, accounts for it, and moves on when the thread is full |
| Partition.Partitioner.RunThread | DSWP_3.cpp:51-90 | fills one thread up to its share, no more than one component beyond it |
| Partition.Partitioner.FillParts | DSWP_3.cpp:93-103 | the parts are a disjoint cover and the error is never reported |
| Partition.Partitioner.ThreadPartition | DSWP_3.cpp:8-109 | the threads are those of a greedy schedule; every component has one; threads do not fall along component edges; used threads are a prefix; each component is pushed exactly once; loads are bounded |
| Handover.Monotone | DSWP_3.cpp:51-90 | for every dependence u to v the thread of u is not later than that of v |
| Handover.OwnersActive | DSWP_4.cpp:230-239 | after the first thread without blocks no thread has instructions |
| Slicing.Climb | DSWP_4.cpp:319-327 | the climb from a block ends at a kept block or the exit, which post-dominates it |
| Slicing.ClimbSucc | DSWP_4.cpp:305-330 | a branch on which nothing kept is control dependent leads to one place whatever it decides |
| Slicing.DifferingTargets | DSWP_4.cpp:335-348 | if redirected targets differ something kept is control dependent on the branch |
| Slicing.Projection | DSWP_4.cpp:305-330 | with a closed set of kept blocks, the first kept block on any path is the one found by climbing |
| Split.Splitter.RelevantBlocks | DSWP_4.cpp:207-228 | exactly the blocks of the thread's instructions and of what these depend on directly |
| Split.Splitter.Redirect | DSWP_4.cpp:316-327 | the loop up the post-dominator tree computes the climb |
| Split.Splitter.Retarget | DSWP_4.cpp:305-330 | every successor of the copied branch is redirected so |
| Split.Splitter.CopyTest | DSWP_4.cpp:289-298 | an instruction is copied exactly when it is the thread's own or a terminator |
| Split.CopiedCopy | DSWP_4.cpp:383-389 | all instructions pending at a copy are pointed at it |
| Split.CopiedAll | DSWP_4.cpp:389-393 | nothing is left pending at the end of a block, so the error is never reported |
| Split.Splitter.CopyBlock | DSWP_4.cpp:281-389 | the copies in order, and for each instruction left out the first copy after it |
| Split.ActiveIs | DSWP_4.cpp:230-239 | the threads that get functions are those before the first without blocks |
| Split.Splitter.LoopSplit | DSWP_4.cpp:194-394 | the functions of all these threads, or an error exactly when one of them does not keep the header |
| Closure.ControllerKept | DSWP_4.cpp:215-226 | a block with an instruction of the thread brings the branches it is control dependent on |
| Closure.FirstClosed | DSWP_4.cpp:207-228 | the first thread keeps everything its blocks are control dependent on |
| Closure.EdgeClosedIff | DSWP_4.cpp:207-228 | a thread keeps the sources of the control edges into its blocks exactly when those into the direct sources of its instructions come from blocks of its own or of such sources |
| Closure.EdgeClosedCloses | DSWP_4.cpp:207-228 | that is control closure at least, and nothing more where every control edge is a control dependence |
| Closure.ClosedIff | DSWP_4.cpp:207-228 | a later thread is closed if the direct sources of its instructions are controlled from blocks it keeps, and only if where every control edge is a control dependence |
| Closure.BranchAvailable | DSWP_4.cpp:305-348 | in every thread a copied branch whose redirected targets differ is owned by no later thread |
| NestedIfs.NestedPeeled | DSWP_1.cpp:232-493 | for the loop with an `if` in an `if` the computation finds exactly its four control dependences |
| NestedIfs.SecondNotClosed | DSWP_4.cpp:215-226 | with the edges that buildPDG finds for it, its second thread keeps a block but not the branch it depends on, and would pass it by |
| NestedPass.NestedIds | DSWP_2.cpp:10-40 | its components: everything but the store `v` and the jump behind it is the first |
| NestedPass.OwnerForced | DSWP_3.cpp:8-109 | with the source's latencies and two threads every greedy schedule gives the second thread just these two |
| NestedPass.PassGivesUp | DSWP_5.cpp:107-112 | so the pass does not get through, unless `v` uses what the outer test loads |
| NestedPass.RunNested | DSWP_0.cpp:138-178 | runOnLoop on this loop ends with an error, or with a plan if `v` has that use |
| NestedPass.NestedResult | DSWP_0.cpp:153-174 | with flag 5 and limit 3 every finished run of the threads leaves the difference, 2, in `out` |
| NestedPass.NestedSound | DSWP_0.cpp:153-174 | that plan, with any capacity, meets every condition of the theorem for a run of the loop that passes both tests, and every finished run of its threads leaves the difference in `out` |
| Plan.Plan.NextCloned | DSWP_4.cpp:289-298 | the first copy not before an instruction, and none between |
| Plan.Plan.TermLast | DSWP_5.cpp:232-237 | in the final lists the terminator's copy comes last |
| Sync.CopiesGood | DSWP_4.cpp:374-381 | the lists of copies are complete, without repetition and in block order |
| Sync.GrowSend | DSWP_5.cpp:44-101 | the send put right behind the copy of its source keeps the list in order |
| Sync.GrowGet | DSWP_5.cpp:104-119 | the receive put right in front of the next copy keeps the list in order |
| Sync.GrowCode | DSWP_5.cpp:36-38 | a channel's two ends, put in, keep all lists complete and in order |
| Sync.Synchronizer.InsertProduce | DSWP_5.cpp:44-101 | one send, immediately behind the copy of the source, and nothing else changes |
| Sync.Synchronizer.InsertConsume | DSWP_5.cpp:104-119 | one receive, immediately in front of what stands for the source; an error exactly when the block is not kept |
| Sync.Synchronizer.AddChannel | DSWP_5.cpp:36-38 | both ends of the next channel |
| Sync.Synchronizer.InsertSynchronization | DSWP_5.cpp:8-41 | the channels are those of the edges in turn, numbered by edge and then by thread, without repetition if no edge is listed twice; an error exactly when a receive has no place |
| Sync.AllChansOrdered | DSWP_5.cpp:12-40 | in a table without repetition no two channels are for the same edge and thread, and their numbers rise with the edge and then with the thread |
| Assembly.AllChansMembers | DSWP_5.cpp:12-40 | a channel is made if and only if it is for an edge of the table and a later thread with a copy of the edge's target |
| Assembly.OneChannel | DSWP_5.cpp:12-40 | for an edge and a later thread with a copy of its target there is exactly one channel |
| Assembly.ServedKeeps | DSWP_5.cpp:107-112 | a branch that something kept is control dependent on is kept, or its receive has no place |
| Assembly.ServedClosed | DSWP_5.cpp:107-112 | a pass that finds a place for every receive has only closed threads |
| Assembly.ServedIff | DSWP_5.cpp:107-112 | every receive has a place exactly when all threads keep the sources of control edges into their blocks and of other edges into the terminators they copy |
| Cleanup.MoveTrailing | DSWP_5.cpp:213-238 | what stands behind the terminator comes to stand before it in reverse order; an error exactly without a terminator |
| Cleanup.MoveTrailingSame | DSWP_5.cpp:232-237 | nothing is lost or duplicated |
| Cleanup.MovePhis | DSWP_5.cpp:244-267 | phi nodes form a stable prefix |
| Cleanup.MovePhisSame | DSWP_5.cpp:257-265 | nothing is lost or duplicated |
| Cleanup.PhisAhead | DSWP_5.cpp:244-267 | in the result no phi node stands behind another instruction, and two phi nodes, or two others, stand as they stood |
| Sync.TidyGood | DSWP_5.cpp:209-239 | cleanup turns the order of insertion into the order of execution: sends of a terminator before it, everything else unmoved |
| Sync.Synchronizer.Clean | DSWP_5.cpp:213-267 | whatever is a phi node, a list comes to hold the same operations, all that belong into it, each once: phi nodes at the top in order, then the rest in order of execution, the terminator last |
| Sync.ArrangedGood | DSWP_5.cpp:244-267 | without phi nodes that is the order of execution throughout |
| Sync.Synchronizer.Cleanup | DSWP_5.cpp:204-267 | every list of every thread ends up so, and no list is added or lost |
| Conflicts.History.AddEvent | DSWP_5.cpp:12-40 | an instance that conflicts with nothing later already executed may take place now |
| Conflicts.History.ReadsAgree | DSWP_5.cpp:12-40 | it then reads what the sequential run had |
| Channels.ReceivedWasSent | runtime/simple_sync.c:10-22 | what has been received for a visit had been sent for that visit |
| Execution.GetBeforeClone | DSWP_5.cpp:106-119 | a receive comes before every copy of a later instruction of the block |
| Execution.SendAfterClone | DSWP_5.cpp:48-100 | a send comes after its source |
| Execution.LinkOrder | DSWP_5.cpp:12-40 | whenever an instance is executed, an earlier one of its thread, or one it depends on, has been |
| Execution.ConflictOrder | DSWP_5.cpp:12-40 | whenever an instance is executed every earlier one it conflicts with has been, in whatever thread, by the chain between them |
| Sequential.Machine.OperandsSet | DSWP_5.cpp:141-160 | setting a register changes exactly the operands that name it; with none set all operands are zero |
| Sequential.Machine.OperandsAgree | DSWP_5.cpp:141-160 | two sets of registers give an instruction the same operands if and only if they agree on every register it uses |
| Pipeline.DirectEdgesCover | DSWP_5.cpp:12-40 | if any two conflicting instances in different threads have an edge of any type between their instructions, in program order, conflicts are covered |
| Execution.EffectRight | DSWP_5.cpp:12-40 | a copy of an own instruction has the effect its instance has in the sequential run |
| Execution.MemoryAfter | DSWP_5.cpp:12-40 | executing it keeps memory equal to a replay in program order |
| Simulation.DidConsume | DSWP_4.cpp:289-298 | when a thread comes to a copy it has received exactly what is owed by the instructions not after it |
| Simulation.OperandRight | DSWP_5.cpp:141-160 | a copy reads from own and received registers what the original reads |
| Steps.CloneStep | DSWP_4.cpp:374-381 | executing a copy keeps the simulation relation |
| Steps.SendStep | runtime/simple_sync.c:10-14 | so does a send |
| Steps.GetStep | runtime/simple_sync.c:16-22 | so does a receive, whose value is its source's value in this visit |
| BlockEnd.LandsRight | DSWP_4.cpp:301-348 | a thread that leaves a block lands on the next block it keeps of the sequential trace |
| BlockEnd.TermStep | DSWP_4.cpp:301-348 | leaving a block keeps the simulation relation |
| Correctness.StepKeeps | DSWP_0.cpp:169-174 | every step of every thread keeps the simulation relation |
| Correctness.RunKeeps | DSWP_0.cpp:169-174 | it holds after every step of every run, and steps are counted exactly |
| Correctness.FullBehind | runtime/queue.c:21-23 | when a send finds its channel full the receiver is at an earlier visit |
| Correctness.EmptyBehind | runtime/queue.c:34-36 | when a receive finds its channel empty the sender is behind |
| Correctness.LastMoves | DSWP_5.cpp:17-38 | the thread furthest behind can move |
| Correctness.NoDeadlock | DSWP_5.cpp:17-38 | while some thread has not returned some thread can move |
| Correctness.RunsEnd | DSWP_5.cpp:17-38 | a run has at most a fixed number of steps and all threads have returned exactly when it has that many |
| Correctness.SameMeaning | DSWP_4.cpp:468-481 | when all have returned memory, the registers in their owners and so the live-out values are the sequential loop's, and the channels are empty |
| Correctness.Conserved | runtime/simple_sync.c:10-22 | on every channel what was sent is what was received followed by what it holds |
| Correctness.InOrder | runtime/simple_sync.c:10-22 | at every point the receiver has taken the first values of the source, in the order of its visits |
| Correctness.ChannelsMatch | DSWP_5.cpp:12-40 | over a whole run sent, received and owed values are the same list |
| Pass.OutputClosed | DSWP_4.cpp:207-228 | every thread of a finished pass is closed |
| Pass.OutputBranches | DSWP_4.cpp:301-348 | the branches of a finished pass are right: closed threads, redirected targets, available conditions |
| Pass.AddControl | DSWP_1.cpp:232-493 | the control half of buildPDG leaves a complete dependence graph |
| Pass.Generate | DSWP_0.cpp:169-171 | with the tables of the earlier phases, splitting, synchronization and cleanup give a plan exactly when the pass gets through, with the relevant blocks of each thread |
| Pass.SurvivesIff | DSWP_4.cpp:194-241 | the pass gets through exactly when the threads with blocks keep the header, their terminators are fed, and the sources of their instructions are controlled from blocks they keep |
| Pass.RunOnLoop | DSWP_0.cpp:138-178 | a loop is left alone exactly when it is one component; any other is scheduled greedily and becomes a plan exactly when the pass gets through, else an error; a plan has everything the theorems ask for |
| Pass.PassCorrect | DSWP_0.cpp:153-174 | what the pass makes of a loop computes what the loop computes, without deadlock, under every interleaving |
| Pass.PassAtRuntime | DSWP_0.cpp:153-174 | the same with every send and receive carried out by the runtime's queues |
| Queue.Ring.PushAppends | runtime/queue.c:25-27 | a push appends to the contents and keeps the ring well formed |
| Queue.Ring.PopTakes | runtime/queue.c:38-40 | a pop takes the first element and keeps the ring well formed |
| Queue.RingBuffer.constructor | runtime/queue.c:4-11 | an initialized queue is empty |
| Queue.RingBuffer.Push | runtime/queue.c:25-27 | the critical section of a push, in place |
| Queue.RingBuffer.Pop | runtime/queue.c:38-42 | the critical section of a pop, in place |
| Monitor.StepKeeps | runtime/queue.c:19-45 | every step of every thread keeps the buffer a queue and no wakeup lost |
| Monitor.AlwaysFifo | runtime/queue.c:19-45 | under every interleaving pushed is popped followed by the contents, and the size stays in bounds |
| Monitor.SleepersCovered | runtime/queue.c:21-36 | with the mutex free, sleeping consumers mean at most as many elements as woken consumers, sleeping producers at most as many places as woken producers |
| Monitor.NeverAllAsleep | runtime/queue.c:21-36 | producers and consumers are never all asleep together; who stays asleep has nothing to do |
| Monitor.HolderMoves | runtime/queue.c:19-45 | whoever holds the mutex can go on, and a woken thread can take it when it is free |
| Runtime.LocalKeeps | runtime/simple_sync.c:10-22 | an instruction of one thread concerns no call in progress |
| Runtime.ChangeFires | runtime/queue.c:25-40 | the change of the buffer inside a call is the atomic send or receive, and it is enabled |
| Runtime.ActHidden | runtime/queue.c:19-45 | locking, waiting, waking, signalling and unlocking do not show in the channels |
| Runtime.MoveRefines | runtime/queue.c:19-45 | every move of threads and queues is one step on atomic channels or none |
| Runtime.RunRefines | runtime/simple_sync.c:10-22 | every run on the real queues is a run on atomic channels with the same contents |
| Realization.InstructionGoes | runtime/simple_sync.c:10-22 | a thread in no call can execute its instruction, whatever goes on at the queues |
| Realization.SenderEnters | runtime/queue.c:19-20 | a thread in no call that has come to a send can take the mutex whenever that is free, whoever sleeps or has been woken, and brings its register's value |
| Realization.ReceiverEnters | runtime/queue.c:32-33 | likewise one that has come to a receive |
| Realization.TestActs | runtime/queue.c:21-36 | at the test the holder can go to sleep if the buffer is full, or empty for a receiver, and can go on if it is not |
| Realization.ChangeActs | runtime/queue.c:25-40 | past the test the holder can change the buffer, and that is the atomic send or receive |
| Realization.SignalActs | runtime/queue.c:28-41 | a signal can wake any nonempty set of the sleepers of the other side, any single one included |
| Realization.LeaveActs | runtime/queue.c:29-42 | the holder can give the mutex back |
| Realization.SleeperActs | runtime/queue.c:21-36 | any woken thread can be the next to get the free mutex, and any sleeper can be woken for no reason |
| Realization.CallCompletes | runtime/queue.c:19-45 | a thread that could send or receive on an atomic channel can make its whole call as soon as the mutex is free, ahead of all who sleep or have been woken, and has then sent or received |
| Realization.RunRealized | runtime/simple_sync.c:10-22 | every run on atomic channels is a run on the real queues |
| Runtime.SleeperBlocked | runtime/queue.c:21-36 | who sleeps while nobody holds or awaits a mutex could not go on with atomic channels either |
| Runtime.RuntimeCorrect | runtime/queue.c:19-45 | on the real queues the threads never get stuck, and when all have returned memory, registers and buffers are as they should be |

## Left out

- LLVM itself: types, casts, argument structures, printing and the construction of dominator trees; post-dominators enter as maps with their defining property.
- The discovery of register and memory dependences (DSWP_1.cpp:57-227): that they cover uses and conflicts is a hypothesis of `Pass.PassCorrect`.
- Phi nodes in the meaning of a loop: the redirection of their incoming blocks (DSWP_4.cpp:350-373) is not part of this model; `Sync.Synchronizer.Cleanup` covers where they are put, and the pass as a whole is put together for loops without them.
- The latency table (DSWP_3.cpp:111-187): an arbitrary non-negative function.
- Casts to and from 64 bits in sends and receives: channel values are opaque.
- The lists of live-in and live-out values (DSWP_4.cpp:505-565): live-ins are part of what instructions compute; every register is covered, so every live-out is.
- The numbers of channels and threads are not checked against the runtime's constants, as they are not in the pass.
- Creation and joining of the threads (runtime/simple_sync.c:24-48): a run starts with all threads at the header and empty channels, and ends when all have returned.
- Memory is sequentially consistent and an instruction is one step; the channels are atomic in `Pipeline` and are the real queues in `Runtime`.
- Runtime.RuntimeCorrect: that a thread which can go on at last does, in spite of spurious wakeups and of others taking the mutex first, is a matter of the system's fairness and is not stated.
- Correctness.NoDeadlock: it speaks of loops that end. In a loop that stays in an inner cycle for ever a thread that keeps no block of that cycle climbs past it and runs ahead of the loop, so the relation to the sequential run does not carry over.
- Dependences on instructions outside the loop, which the memory analysis can add as edges (DSWP_1.cpp:97-150): the pass is given edges within the loop.
- Terminators that yield a value, like an invoke: a register dependence starts at an instruction that is not a terminator.
- Functions for threads after the first empty one: the code makes none, and no instruction belongs to them.
- BuildPdg.PeeledDeps: the control edges may be more than the control dependences of the loop, as in the code; `ControlDependence.PeeledDepIff` says exactly which.
- Split.Splitter.LoopSplit: the blocks of a thread are copied in an arbitrary order, where the code goes by address.
- Partition.Partitioner.Top: ties between components of equal latency are broken arbitrarily.
- Partition.Partitioner: the field `assigned` of the source is called `placed`, and integers do not overflow.
- The collapse of a branch with agreeing targets is part of its execution (`Pipeline.Next`) instead of a change of the instruction.
- `checkEdge`, the debugging output, `Utils`, and the example programs.

# FIAL, modelled and proved

FIAL is a small embeddable language. This project models its three hardest
components and the values they share, and proves what they promise.

**Channels with `pick`** (`ChannelModel`, `ChannelInvariant`, `ChannelFrames`,
`ChannelSteps`, `ChannelPickSteps`, `ChannelMailSteps`, `ChannelTheorems`,
`ChannelAnswers`, `ChannelProgress`, `ChannelSoloPick`, `ChannelObject`). A transition system with any number of threads, each inside a
put, a take or a pick, and any number of channels. One step is one operation on
a lock or a semaphore, or one access to a ring or a mailbox; where a put works on a
mailbox's semaphores, which live on the picker's stack, reading the pointer, changing the
count and leaving the semaphore are steps of their own, so that a put can be seen in the
middle of them. One invariant ties
lock owners, semaphore counts, ring indices and mailboxes together, and the
theorems follow from it for every interleaving: what is put is what is consumed, in order
(`ChannelTheorems`), an operation answers for the channel, the value and the list it was begun
with (`ChannelAnswers`), and when nothing can move no channel has a sender and a receiver
waiting (`ChannelProgress`). `puts`, `log`, `got`, `posts` and
`op` in the state are history, read by no step. The unlock loop of a pick
(`src/channels.c:324-325`) lacks the null guard its neighbours have. The state
has a flag `guarded`: with the guard no pick ever dies; without it the model
follows the code and the theorems say exactly which picks die, and everything
else is proved either way; `ChannelSoloPick` says it of the call, from the list of
channels and the state in which the pick begins, and says which lists can lead to it. `ChannelObject` is the ring as an
object, with the teardown loop.

**Semaphores** (`SemaphoreModel`, `SemaphoreProofs`). The counting semaphore made
of a mutex and a condition variable, with spurious wake-ups, signals that may wake
more than one thread, and signalling after the unlock. It refines an atomic
semaphore and loses no wake-up.

**The growable deque** (`DequeModel`, `Deque`). `DequeModel` is the arithmetic of
`first`, `head` and `size`; `Deque.Seq` is the object with its buffer, and each
method is proved against a mathematical sequence and against `DequeModel`.

**Values** (`Heap`, `Store`, `Ownership`, `OwnershipSlots`, `Scopes`, `Discipline`,
`ValueObject`, `Paths`, `PathTheorems`, `PathLaws`). Maps and sequences live in a heap and are
named by ids, so that two slots could name one container. A forest, a tree to
each cell, says when none do. Variables are cells that symbol tables bind; a local
`value` of the C code is a cell that no table binds, so a value that an error makes
the interpreter forget is still there and can be seen to leak.

**The interpreter** (`Language`, `OperatorLaws`, `CallLaws`, `Blocks`, `Statements`,
`Machine`, `Evaluator`, `Refinement`, `InterpreterTheorems`, `Runs`, `RunTheorems`,
`TargetsStay`, `Forgetting`, `Formals`, `ExecEnv`, `ValueSemantics`, `ValueRefinement`,
`StatementMeaning`, `BlockMeaning`, `ValueEvaluator`, `ProgramMeaning`, `Renaming`,
`AnyNames`, `Symbols`). `OperatorLaws` says what each operator computes from the values of
its operands, and `CallLaws` which procedure of which library a call runs.
`Machine` is the loop over the explicit block stack, one iteration to
a step; `Evaluator` gives programs their meaning by structure, with no stack and a
lexical library; `InterpreterTheorems` proves the two equal. `ValueSemantics`
says what statements mean when containers are plain values, with no heap and no
addresses, and `StatementMeaning` and `BlockMeaning` prove that the
interpreter's pointers implement it. `ValueEvaluator` puts those statements together
into whole programs over plain values; all it takes from outside is names for the
variables it makes, and `AnyNames` proves that a program ends with the same values and
the same error in the loop and there, whatever the names. `Runs` and `RunTheorems` hold
what is true in every state a program reaches; `Forgetting` says exactly which failing
statements leave a container behind. `ExecEnv.Env` is the environment as an object
that every statement updates in place; its loops are the code's loops and its
methods are proved against the functions of the other modules.

Where the code and its own text differ, the code is followed:

- `src/sequence.c:84` multiplies by the size of the deque's header, not of a value.
  `Deque.Seq` moves `count` values, as meant. `DequeModel.MoveOverReach` says exactly when the
  move as written stays inside the buffer, `DequeModel.MoveOverSoundIff` exactly when it keeps
  the contents, and `DequeModel.CompactionHappens` reaches a deque where it does not.
- `src/sequence.c:58-62` sets `size` before the first allocation is known to have
  succeeded; `DequeModel.FailedFirstAllocation` shows what the next store does.
- `src/sequence.c:129-138`, the second branch of reserve, can never be taken (its condition
  is that of line 126), so it has no counterpart.
- `src/parser.y:98-110` lets a procedure name two formals alike.
  `Formals.CallsKeepRulesIff` proves that the rules for references hold for all calls
  if and only if they differ.
- `src/api.c:520-538` destroys what a copy overwrites only when the value copied is
  a container. `PathLaws.DupeKeepsOwnershipIff` says exactly when that forgets one, and
  `PathLaws.DupeForgets` is such a case.
- A statement that fails forgets the container it is making or has just made: an initialiser
  that fails, or the value of an assignment with no target (`src/interp.c:1099-1121`). What is
  already bound, such as the earlier arguments of a call that fails, is destroyed.
  `Forgetting.LeakIff` says exactly which runs leave a container behind, and
  `Forgetting.OrphanLeft` is one.

## Model

| member | source | states |
|---|---|---|
| ChannelTheorems.KeepPut | src/channels.c:207-235 | each lock, semaphore, ring and mailbox operation of a put, one to a step, keeps the invariant, and none meets a missing or dead mailbox; trying a mailbox's semaphore and posting it take several steps |
| ChannelTheorems.KeepTake | src/channels.c:237-249 | so does each operation of a take |
| ChannelTheorems.KeepScan | src/channels.c:284-320 | so does the scanning loop of a pick, the failing exit included |
| ChannelTheorems.KeepFast | src/channels.c:290-309 | so does the exit of a pick that finds a value while scanning |
| ChannelTheorems.KeepSlow | src/channels.c:321-341 | so does the exit of a pick that waits for its mailbox, with the unlock loop guarded or as written |
| ChannelTheorems.StepKeepsInv | src/channels.c:181-342 | every enabled step of every thread keeps the invariant |
| ChannelTheorems.RunKeepsInv | src/channels.c:181-342 | every run keeps it |
| ChannelTheorems.Fifo | src/channels.c:181-249 | in every reachable state the values consumed, by take, scan or mailbox, followed by the ring's contents, are exactly the values put, in order |
| ChannelTheorems.NoOverwrite | src/channels.c:181-198 | at every insertion the ring holds at most `size` values, the slot written is not live, and a removal in progress uses another slot |
| ChannelTheorems.PickExactlyOnce | src/channels.c:289-341 | a successful pick consumed one value, from the channel it reports, nothing elsewhere, and posted that channel's `take` once |
| ChannelTheorems.PickFailsCleanly | src/channels.c:315-320 | a failing pick consumed and posted nothing |
| ChannelTheorems.TakeExactlyOnce | src/channels.c:237-249 | a take returns the one value it consumed and posted `take` once |
| ChannelAnswers.RunServes | src/channels.c:207-342 | in every run every thread is in the operation it began last: a put on the channel and of the value it was given, a take from the channel it was given, a pick from the list it was given |
| ChannelAnswers.PutAnswers | src/channels.c:207-235 | a put that has returned has put the very value asked for on the channel asked for, no more than size values from consumption; with size 0 that value has been consumed |
| ChannelAnswers.TakeAnswers | src/channels.c:237-249 | a take that has returned has consumed exactly one value, from the channel asked for, and returns it |
| ChannelAnswers.PickAnswers | src/channels.c:284-341 | a pick that has returned an index and a value has consumed exactly that value, from the channel at that index of the list asked for; one that failed has consumed nothing |
| ChannelAnswers.PutsWereAsked | src/channels.c:181-235 | no value comes from nowhere: whatever is ever put on a channel some thread was asked to put there |
| ChannelAnswers.AnyStart | src/channels.c:34-78 | runs can start with any channels of any sizes and any number of threads |
| ChannelAnswers.AnyOperation | src/channels.c:207-284 | in every reachable state a thread between operations can begin any operation on any channels |
| ChannelTheorems.BoundedBuffering | src/channels.c:207-235 | when the k-th put on a channel of size s returns, at least k - s values have been consumed |
| ChannelTheorems.Rendezvous | src/channels.c:207-235 | with size 0 a put returns only after its own value was consumed |
| ChannelTheorems.NeverCrashes | src/channels.c:209-231 | from the moment a put reads a mailbox pointer until it has left the mailbox's semaphores it holds the channel's lock, the pointer stays, and the picker is still in the pick that set it |
| ChannelTheorems.MailboxNotUsedAfterReturn | src/channels.c:292-341 | once a pick is about to destroy its mailbox, no channel points at it and no put is trying it, filling it or still inside the post of its semaphore |
| ChannelTheorems.MailboxWrittenUnderLock | src/channels.c:292-334 | a step that writes a channel's mailbox pointer, to set it or to clear it, is of a thread that holds the channel's lock |
| ChannelTheorems.LockProgress | src/channels.c:284-336 | a thread waiting for a channel's `lock` waits for one that can step, or for a pick that waits for a put that can step |
| ChannelProgress.RunServed | src/channels.c:226-231 | in every run, a waiting pick whose mailbox has been won and not yet posted is being served by a put |
| ChannelProgress.NobodyMissesAnother | src/channels.c:207-342 | when no thread can move and no pick has died, every thread rests or waits for a value, for room or to be let in; a channel with a sender waiting holds one value more than fits, one with a receiver waiting holds none, so none has both |
| ChannelTheorems.GuardedNeverDies | src/channels.c:324-325 | were the null guard of the neighbouring loops there, no pick would die in the unlock loop |
| ChannelTheorems.UnlockLoopFate | src/channels.c:324-325 | run from any point, the unlock loop ends waiting for the mailbox if it is guarded or no remaining entry was nulled, and otherwise dies |
| ChannelTheorems.UnguardedUnlockLoop | src/channels.c:324-325 | as written, under any interleaving, a pick past the loop had won every channel, and one that died had not |
| ChannelTheorems.UnguardedPickCanDie | src/channels.c:284-325 | a run of the code as written in which a pick dies |
| ChannelSoloPick.WaitersListNoChannelTwice | src/channels.c:284-341 | as written, under any interleaving, a pick that got past the unlock loop was called with pairwise different channels |
| ChannelSoloPick.SoloPickDiesIff | src/channels.c:284-325 | as written, a pick run alone from its start dies if and only if it wins some channel of its list and not all, and every channel it wins is unlocked and has no value |
| ChannelSoloPick.CanDieIff | src/channels.c:284-325 | as written, a pick can die in some run of two threads on fresh channels if and only if its list has at least two entries |
| ChannelSoloPick.DeadListsTwo | src/channels.c:284-325 | under any interleaving of any number of threads, a pick of one channel never dies |
| ChannelTheorems.Quiescent | src/channels.c:107-121 | with no thread inside an operation, put + take = size and the ring holds size - take values |
| ChannelObject.Channel.PutValue | src/channels.c:181-188 | from a good ring with room, the contents gain the value at the end and the ring stays good |
| ChannelObject.Channel.TakeValue | src/channels.c:190-198 | from a good ring with a value, the oldest value is returned, the rest stays in order and the ring stays good |
| ChannelObject.Channel.Deinit | src/channels.c:107-129 | the teardown loop finalises exactly the buffered values, each once, oldest first, across the wrap-around |
| SemaphoreProofs.NoLostWakeup | src/sync_pthread.c:54-69 | the count is never negative, and while a thread sleeps it is at most the signals still to come plus the woken threads yet to recheck |
| SemaphoreProofs.SleepersAreNotStranded | src/sync_pthread.c:54-69 | while a thread sleeps and the count is positive, some thread that can move is inside the lock, has a signal still to send, or is awake and about to recheck |
| SemaphoreProofs.OnlySleepersWait | src/sync_pthread.c:54-93 | when no thread can move by itself the mutex is free, every thread is between operations or asleep, and if one is asleep the count is 0 |
| SemaphoreProofs.ActionRefines | src/sync_pthread.c:54-93 | every step is a step of the atomic semaphore, or none |
| SemaphoreProofs.RefinesAtomicSemaphore | src/sync_pthread.c:34-93 | every run, from any initial count, is a run of the atomic semaphore that gives the same answers, and has the same count at every point of the run |
| DequeModel.InFromWellFormed | src/sequence.c:92-176 | a store adds one live value, and is refused exactly when the buffer is full to both ends and cannot grow |
| DequeModel.RefusedIsWellFormed | src/sequence.c:56-63 | a refused store leaves a good deque exactly when there was a buffer |
| DequeModel.FailedFirstAllocation | src/sequence.c:58-62 | after the very first allocation fails, the next store goes through a null buffer |
| DequeModel.MoveOverReach | src/sequence.c:81-90 | the compaction as written stays inside the buffer exactly when nothing is live or a header is no larger than a value |
| DequeModel.MoveOverSoundIff | src/sequence.c:81-90 | where `need_room` compacts, the compaction as written keeps the contents exactly when nothing is live or a header is as large as a value |
| DequeModel.CompactionHappens | src/sequence.c:81-113 | twelve stores and five removals reach a deque of seven values that the next store compacts; with a larger header that leaves the buffer, with a smaller one it loses values |
| DequeModel.AmortisedCost | src/sequence.c:56-176 | over any run from empty, compaction and doubling move at most two elements per store |
| DequeModel.CapacityBound | src/sequence.c:56-113 | capacity never exceeds twelve or three times the peak live count |
| Deque.Seq.MoveOver | src/sequence.c:81-90 | compaction as meant keeps the contents and slides them to the front |
| Deque.Seq.Grow | src/sequence.c:56-79 | doubling keeps the contents and the offsets |
| Deque.Seq.NeedRoom | src/sequence.c:92-113 | compact or double, keeping the contents |
| Deque.Seq.Reserve | src/sequence.c:115-153 | room for the new size, contents kept, and the possible shrink to exactly that size |
| Deque.Seq.In | src/sequence.c:155-176 | appends one value to the sequence and empties the caller's, or changes neither |
| Deque.Seq.First | src/sequence.c:178-187 | removes and returns the oldest value; fails only on empty |
| Deque.Seq.Last | src/sequence.c:189-198 | removes and returns the newest value; fails only on empty |
| Deque.Copy | src/sequence.c:200-228 | the destination ends with the source's values in order, or with those before the first that could not be copied; the source is unchanged |
| Deque.Append | src/sequence.c:230-259 | concatenation, leaving the source empty, exactly when there is memory, room behind the first value, or nothing to append, and no change otherwise; a deque appended to itself is doubled |
| Heap.FinTree | src/basic_types.c:61-76 | destroying a value removes exactly the containers of its tree, each once |
| Heap.DeepCopy | src/api.c:26-44 | a copy of a value nested to any depth is equal, in the same order, shares no container, and leaves the source as it was |
| Heap.CopyTree | src/basic_types.c:99-134 | the copy is made of new containers only, and everything that was there stays |
| ValueObject.Values.Destroy | src/api.c:495-505 | on any value that is a tree, the recursion through finalisers over the live heap ends and does what `Fin` says |
| ValueObject.Values.DestroyAll | src/basic_types.c:61-76 | the clearing loop destroys the entries from first to last |
| ValueObject.Values.CopyValue | src/api.c:520-538 | on any value that is a tree, the recursion through copiers, reading the heap it is adding to, ends and makes the copy `Copy` says |
| ValueObject.Values.GatherEntries | src/basic_types.c:111-125 | the prepending loop builds the copied entries back to front |
| ValueObject.Values.TurnRound | src/basic_types.c:127-132 | the reversing loop puts them in the source's order |
| ValueObject.Values.CopyElements | src/sequence.c:222-226 | the element loop of a sequence's copy |
| OwnershipSlots.TakeKeeps | src/api.c:507-518 | moving a value out of a slot cuts its tree out and leaves none there |
| OwnershipSlots.ClearKeeps | src/api.c:495-505 | clearing a slot destroys its tree and changes no other |
| OwnershipSlots.FillKeeps | src/basic_types.c:152-182 | storing a value in an empty slot sets its tree there |
| OwnershipSlots.AddKidKeeps | src/basic_types.c:172-181 | a new entry of a container is one new branch of its tree |
| OwnershipSlots.DupKeeps | src/api.c:520-538 | copying adds an equal tree and changes none |
| Scopes.ResolveFacts | src/interp.c:177-211 | what a name resolves to is a variable that is there and is no reference |
| Statements.BuildWell | src/interp.c:812-994 | every right side, nested initialisers included, keeps ownership and the rules for references, makes one local, and on failure only forgets locals |
| Statements.DeclareWell | src/interp.c:339-402 | so does a declaration, which leaves no local over when it succeeds |
| Statements.AssignVarWell | src/interp.c:1099-1121 | so does an assignment to a variable |
| Statements.AssignEntryWell | src/interp.c:1123-1190 | so does an assignment through a path |
| Statements.BindArgsWell | src/interp.c:1257-1379 | so does binding arguments, when the formals differ |
| Blocks.PopFine | src/interp.c:1385-1418 | closing a block destroys its variables, and leaves no reference dangling and no local |
| Formals.CallsKeepRulesIff | src/parser.y:98-110 | the rules hold for every call of a procedure if and only if its formals are pairwise different |
| Refinement.SimStmt | src/interp.c:1885-1949 | one statement, in the evaluator and in the loop, ends alike |
| Refinement.SimBlock | src/interp.c:1836-1883 | a block, with every leave and redo meant for it or passing through, ends alike |
| InterpreterTheorems.LoopIsEvaluator | src/interp.c:1885-1949 | for every program and starting stack, the loop stops with a store and outcome exactly when the structural evaluator gives them |
| InterpreterTheorems.EnoughFuel | src/interp.c:1885-1949 | a run of n iterations needs no more than n + 2 fuel, so the evaluator's bound hides nothing |
| InterpreterTheorems.FuelDoesNotMatter | src/interp.c:1885-1949 | any two bounds that suffice give the same answer |
| InterpreterTheorems.LeaveLands | src/interp.c:1836-1847 | leave closes the innermost block with the label and all above it, and goes on after it |
| InterpreterTheorems.RedoLands | src/interp.c:1849-1883 | redo closes the blocks above the innermost one with the label, drops that one's variables, formals included, and restarts it |
| InterpreterTheorems.UnmatchedEnds | src/interp.c:1836-1883 | a label no block has empties the stack and ends the run normally |
| CallLaws.OwnCallLaw | src/interp.c:1741-1766 | f() runs the active library's own f, with that library active, and fails exactly when there is none or an argument fails |
| CallLaws.LibraryCallLaw | src/interp.c:1772-1830 | l.f() runs f of the library that l names everywhere, or else of the one the active library loaded as l, with that library active until the block ends; each failure has its own error |
| Runs.StepOk | src/interp.c:1885-1949 | every iteration keeps ownership, reference rules, tables and libraries in order |
| RunTheorems.SingleOwner | src/interp.c:812-1190 | in every reachable state no two slots hold the same map or sequence |
| RunTheorems.Acyclic | src/interp.c:1099-1190 | a measure strictly decreases from every container to what it holds |
| RunTheorems.FinalisedOnce | src/interp.c:1385-1418 | every call of a finaliser is logged, and none is on a container destroyed before; none destroyed is still held |
| RunTheorems.SharedFreedTwice | src/interp.c:1405-1413 | what single ownership prevents: a block whose two variables held one map would destroy it twice |
| RunTheorems.NothingLeaks | src/interp.c:1385-1418 | until an error every container is inside a variable or an external argument; at the end, inside an external argument |
| RunTheorems.UnwindCleans | src/api.c:234-249 | unwinding after any run destroys everything but the external arguments and what an error made the interpreter forget, each once |
| Forgetting.AssignVarForgetsIff | src/interp.c:1099-1121 | x = e fails if and only if e does or x is not there beforehand; it forgets a container if and only if it fails and e is an initialiser, or moves or copies a container that is there |
| Forgetting.AssignEntryForgetsIff | src/interp.c:1123-1190 | so does an assignment through a path, which fails if and only if e does or the path leads to no map once the moves of e are done, or beforehand if e moves nothing |
| TargetsStay.NameStays | src/interp.c:1030-1121 | whatever a right side moves, a name stands for the same variable before and after |
| TargetsStay.PathStays | src/interp.c:1030-1190 | a path leads to a map after a right side exactly when it does over plain values once the moves are done |
| Forgetting.DeclareForgetsIff | src/interp.c:339-402 | a failed declaration forgets a container if and only if what fails is an initialiser |
| Forgetting.BindArgsForgetsIff | src/interp.c:1257-1379 | binding arguments forgets a container if and only if the argument that fails is an initialiser |
| Forgetting.OpenForgetsIff | src/interp.c:1432-1499 | so does a call, which destroys the arguments it had bound |
| Forgetting.PerformForgetsIff | src/interp.c:1899-1934 | and no other statement forgets one |
| Forgetting.LeakIff | src/api.c:234-249 | after any run and the unwinding, a container is left that no external argument holds if and only if some statement of the run failed in one of these ways |
| Forgetting.OrphanLeft | src/interp.c:1099-1121 | x = {} with no x declared fails, and the map is left with nothing to hold it |
| RunTheorems.ReferencesPointDown | src/interp.c:1275-1286 | every reference in a block is to a live variable of a strictly deeper block or an external argument, and never to a reference |
| RunTheorems.LibraryRestored | src/interp.c:1385-1394 | whenever a statement runs, the library is the one active when its block was pushed |
| RunTheorems.AlwaysAStatement | src/interp.c:1936-1947 | the loop never meets a block without a current statement |
| RunTheorems.StartOk | src/api.c:290-333 | binding the C caller's arguments starts a run in good order |
| RunTheorems.StartBinds | src/api.c:290-333 | the i-th formal refers to the C caller's i-th argument, and holds none beyond them |
| RunTheorems.AnyArguments | src/api.c:290-333 | runs can start with any number of arguments that are plain values |
| StatementMeaning.EvalMeans | src/interp.c:584-765 | an expression has the value it has over plain values, errors included; `OperatorLaws` says what the operators compute |
| OperatorLaws.IntegerLaw | src/interp.c:443-479 | on integers the operators give sum, difference, product, the quotient rounded towards zero or an error value for 0, and 1 or 0 for the comparisons, `and` and `or` |
| OperatorLaws.TruncatesOnce | src/interp.c:457-463 | at most one number is the quotient rounded towards zero |
| OperatorLaws.FloatLaw | src/interp.c:404-435 | on floats they give what float arithmetic gives, operands in order |
| OperatorLaws.IntegerFloatLaw | src/interp.c:488-503 | an integer left of a float becomes a float, and equals none |
| OperatorLaws.FloatIntegerLaw | src/interp.c:504-511 | so does an integer right of one |
| OperatorLaws.OtherLaw | src/interp.c:488-532 | with an operand that is no number arithmetic and comparison fail, equality compares, and what is no number is false |
| OperatorLaws.ErrorLaw | src/interp.c:629-642 | a failing operand fails the expression and an error value makes it one, left before right |
| OperatorLaws.OneOperandLaw | src/interp.c:688-749 | minus and not |
| OperatorLaws.VariableLaw | src/interp.c:658-684 | a variable in an expression is its value, and an error value when it holds a container |
| OperatorLaws.IfLaw | src/interp.c:1211-1237 | an if runs its block exactly when its condition is a non-zero number |
| StatementMeaning.BuildMeans | src/interp.c:1030-1097 | a right side makes the value, performs the moves and fails with the error it does over plain values |
| StatementMeaning.SetKeyMeans | src/basic_types.c:152-182 | setting an entry of a map a path leads to is writing the changed map at that path |
| BlockMeaning.AssignVarMeans | src/interp.c:1099-1121 | x = e over pointers is x = e over plain values |
| BlockMeaning.AssignEntryMeans | src/interp.c:1123-1190 | a.b.c = e over pointers is the write at the path over plain values |
| BlockMeaning.DeclareMeans | src/interp.c:339-402 | declarations from left to right make new variables with the values of their right sides |
| BlockMeaning.BindArgsMeans | src/interp.c:1257-1379 | each formal gets its argument: a reference to the caller's variable, a value, a moved or copied one, or none |
| BlockMeaning.OpenMeans | src/interp.c:1432-1499 | a call opens a block with its arguments, with no bindings when there is no argument list, and closes it again when an argument fails |
| BlockMeaning.PopMeans | src/interp.c:1385-1418 | closing a block forgets its variables and changes the value of no other |
| ProgramMeaning.StmtsMean | src/interp.c:1885-1949 | for any statements there are names for new variables under which the evaluator over stores and the evaluator over plain values end alike, with equal values |
| AnyNames.ProgramMeans | src/interp.c:1885-1949 | when the loop and the value semantics, under any names that suit, both end a program, they end with the same error if any and equal values, up to what variables other than the external arguments are called |
| AnyNames.StopsIff | src/interp.c:1885-1949 | the loop ends exactly for the programs that the value semantics ends, with some bound and some names |
| AnyNames.BlockBy | src/interp.c:1836-1883 | a block, leaves and redos included, ends alike in both under every choice of names |
| PathTheorems.ReachTree | src/interp.c:273-332 | an access path reaches a slot exactly when it resolves in the value's tree, and the slot holds the tree found |
| PathTheorems.MoveEffect | src/api.c:507-518 | a move to a slot from one it does not overlap: the target holds the source's value, the source holds none, every other slot what it held, and what the target held is destroyed |
| PathLaws.PutLaw | src/omni.c:275-299 | put succeeds exactly when the path resolves; the value is then there, its variable holds none, no other variable changes |
| PathLaws.PutElsewhere | src/omni.c:275-299 | paths that part ways with the one put at lead to the same containers as before |
| PathLaws.TakeLaw | src/omni.c:302-326 | take succeeds exactly when the path resolves, and moves what was there, leaving none |
| PathLaws.DupeLaw | src/omni.c:329-358 | dupe succeeds exactly when the path resolves and makes an equal value with its own containers |
| PathLaws.PutThenDupe | src/omni.c:275-358 | dupe after put at a path gives a value equal to the one put |
| PathLaws.PutThenTake | src/omni.c:275-326 | take after put gives back the very containers put |
| PathLaws.TakeThenPut | src/omni.c:275-326 | taking a value out and putting it back restores the container |
| PathLaws.DupeKeepsOwnershipIff | src/api.c:520-538 | dupe keeps ownership if and only if it does not put a plain value over a variable that holds a container |
| PathLaws.DupeForgets | src/omni.c:329-358 | a store in which dupe puts a number over a map: the map stays, owned by nothing and never destroyed |
| PathLaws.PutFinely | src/omni.c:275-299 | put at a path that resolves, from a variable that holds no reference, keeps ownership and the rules for references |
| PathLaws.TakeFinely | src/omni.c:302-326 | so does take |
| PathLaws.DupeFinely | src/omni.c:329-358 | so does dupe, unless it puts a plain value over a container |
| ExecEnv.Env.SetSymbol | src/basic_types.c:152-182 | the search down the list, then overwrite or prepend |
| ExecEnv.Env.FindVariable | src/interp.c:195-211 | the search through the blocks from the top |
| ExecEnv.Env.AccessCompound | src/interp.c:273-332 | the loop down an access path |
| ExecEnv.Env.MoveInto | src/api.c:507-518 | in a well-formed store, the target holds the source's value, the source none, and no other slot changes |
| ExecEnv.Env.OmniPut | src/omni.c:275-299 | put in place, the store untouched when it fails |
| ExecEnv.Env.OmniTake | src/omni.c:302-326 | take in place, the store untouched when it fails |
| ExecEnv.Env.OmniDupe | src/omni.c:329-358 | dupe in place, the store untouched when it fails |
| ExecEnv.Env.DeclareVariable | src/interp.c:339-402 | the loop over the declared names |
| ExecEnv.Env.FillInitialiser | src/interp.c:845-992 | the loop over an initialiser's items |
| ExecEnv.Env.InsertArgs | src/interp.c:1257-1379 | the loop over formals and arguments |
| ExecEnv.Env.PopBlock | src/interp.c:1385-1418 | the loop over a block's variables, and the library restored |
| ExecEnv.Env.ExecuteBreak | src/interp.c:1836-1847 | the popping loop of leave |
| ExecEnv.Env.ExecuteContinue | src/interp.c:1849-1883 | the popping loop of redo |
| ExecEnv.Env.PerformCall | src/interp.c:1432-1499 | the block pushed, the arguments bound before the library changes |
| ExecEnv.Env.Execute | src/interp.c:1899-1934 | one statement dispatched, with the skip flag left as the code leaves it |
| ExecEnv.Env.Settle | src/interp.c:1935-1947 | the advance, and the loop that pops finished blocks |
| ExecEnv.Env.Interpret | src/interp.c:1885-1949 | n iterations are n steps of the machine, with the code's return values |
| Symbols.SameSymbolIff | src/interp.c:66-134 | however many names are interned in between, two texts get one symbol exactly when they are the same or both have 31 characters or more and agree in the first 31 |
| Symbols.SymbolTable.GetSymbol | src/interp.c:90-134 | the table as an object, enlarged when full: a text gets the symbol of every earlier text that is the same or agrees in the first 31 characters, and of no other; a new one while loading, none while running |

## Left out

- C functions called from programs (`src/interp.c:1501-1739`): a call that resolves to a C library is not part of this model; put, take and dupe are modelled on their own.
- Overlapping destination and source of a move or copy, such as putting a map into itself: outside the laws of put, take and dupe, which ask for different variables.
- Allocation failure outside the deque: every other allocation succeeds.
- Integer overflow: integers are unbounded. Division truncates as in C.
- Floats: a float is opaque bits, and arithmetic on them is a parameter of the program.
- Text buffers, channels and other types as values in a program, type registration, constants and globals: easy members beside maps and sequences.
- Error positions and messages: only the error's kind is kept.
- Lexer, parser, loader, library registration and printing: programs are given as syntax trees.
- `src/F_threads.c`, the twin of `src/sync_pthread.c`, and thread launch and join.
- Reference counts of channels, and destroying a channel while threads use it, which the code rules out (`src/channels.c:100-105`).
- Scheduling fairness: that a thread that can move is ever given its turn.
- ExecEnv.Env.Interpret: runs at most a given number of statements, because the loop itself need not end; `InterpreterTheorems.LoopIsEvaluator` has no such limit.
- Evaluator.ExecStmts: takes a bound on depth and length; `InterpreterTheorems.EnoughFuel` shows that every run that ends has enough.
- BlockMeaning.DeclareMeans: the cells that new variables get are given by the proof, because a value semantics has no allocator; `AnyNames` shows that others do as well.
- Deque.Seq.MoveOver: moves `count` values, as meant, where line 84 scales by the header's size; `DequeModel.MoveOverSoundIff` is about the line as written.
- ChannelTheorems.GuardedNeverDies: is about the loop with the null guard that `src/channels.c:324-325` lacks; `ChannelSoloPick.SoloPickDiesIff` and `ChannelTheorems.UnguardedUnlockLoop` are about the loop as written.
- Language.BindArgs: a moved argument is emptied before its formal is bound, the code does it after; the two differ only when formals repeat.
- ExecEnv.Env.OmniDupe: calls the copying function where the code calls copiers; the copiers' loops are `ValueObject.Values`.

# Verification of the build engine

makebelieve serves declared outputs as files and builds each one when it is
first opened. This project models that engine in Dafny and proves what its
parts promise each other.

Concurrency is modelled by machines. One critical section under a lock, or one
compare-and-exchange, is one step. What a section leaves to be done after the
lock is released is a component of the state, and every later order of those
effects is a different run. Theorems about "every run" quantify over all
sequences of steps from the initial state.

Code that changes things in place is modelled by classes and loops that change
things in place. Each such method is proved against a function of the old state,
and the theorems are proved about those functions. Attempts and waits have
identities (integers), and the maps from identities to their fields are what
the coordinator's methods update.

## The parts

**The rule language** (`Paths`, `Manifest`, `Feeds`, `Parse`, `Graphs`,
`Expand`, `MadeNames`). `Manifest` has the patterns and the reasons two rules conflict;
`Parse` decides line by line, from the indexes the parser keeps, which rules
stand; `Feeds` closes the "feeds" matrix in place; `Expand` goes round until no
wildcard adds an output. The results: what rules free of conflict make never
collides or nests, whatever files the source comes to hold; expansion ends and
yields the least closed set of outputs, in whatever order the rules are given.
`MadeNames` says exactly when an expanded path is not one under the root, and
which rules can ever have it so.

**The coordinator** (`CoordinatorModel`, `CoordinatorInvariants`,
`CoordinatorBooks`, `CoordinatorRounds`, `Coordinator`). `CoordinatorModel` says
what each operation does to all attempts and waits at once, and
`CoordinatorInvariants` that each keeps the wait graph acyclic, the hurried set
closed and the permit protocol intact. The class `Coordinator` has the loops,
the lists and the edge counts of the code, and refines the model;
`CoordinatorRounds` shows that going one wait or one attempt at a time comes to
the same.

**The queue** (`QueueLines`, `BuildQueue`, `QueueWaits`, `SlotOperations`).
`QueueLines` has the three lines as sequences; the class `BuildQueue` refines
them with linked waiters and the tickets that point at them; `QueueWaits` bounds
how long anyone waits; `SlotOperations` is the machine of starts, stops, slots
given back and shutdowns.

**The two composed** (`Permits`, `PermitsInvariant`, `PermitsOpen`,
`PermitsSteps`, `PermitsRuns`, `PermitsTakeBacks`, `PermitsDoom`, `PermitsLaw`). One machine in
which attempts take permits from the queue, give them back while their requests
wait and take them again. It never deadlocks, nothing in it spins, and no request
succeeds on an attempt that was on a cycle. `PermitsLaw` says what each step comes
to for one wait and one attempt without the coordinator's functions, and that
every answer, doom and hurry has its cause.

**The build tree** (`CacheRecords`, `DependencyIndex`, `Restore`,
`RestoredMeaning`, `BuildTree`, `BuildTreeInvariant`, `BuildTreeLaw`,
`BuildTreeReads`, `BuildTreeFlights`, `BuildTreeKept`, `RuleChanges`, `ContentHashes`, `BuildDirectoryTree`,
`CacheKeeping`, `InMemoryTree`, `Layout`). `BuildTree` is the machine of opens,
builds, invalidations, changes of rules and cache records; the four modules after
its invariant say what each step comes to for one output, and for what cause; `RuleChanges` has a
change of rules in its three sections, with every other step between them; the
class `BuildDirectoryTree` has the critical sections as they run, and
`CacheKeeping` those by which builds are kept in the cache and dropped from it.
`ContentHashes` ties the hashes kept for readers to the content served. `Restore`
shows that the memoised search for cached builds that still hold finds exactly a
least fixpoint, and `RestoredMeaning` that what holds is what building it now would
come to; `Layout` that the tree served keeps the shape of what is declared.

**The tree and the coordinator together** (`BuildAttempts`, `WholeBuild`,
`WholeRuns`, `WholeAnswers`). One machine in which each step of the build tree takes with it what
it asks of the coordinator: an attempt made, one that is never to run, one
completed. What it asks is always to be had; so each part of a run of the two is a
run of its own machine, and the two together never deadlock
either. An open told of a success waited for a build whose bytes were written.

**The cache on disk** (`BuildCache`): its history is every state the disk was
ever in, and every one of them is intact.

**The waiting thread** (`LinkedNode`, `IoContext`, `IoOutcomes`, `IoThread`): intrusive rings
and stacks in place, the machine of the thread and those that hand it work, and
the methods by which each changes the stacks and lists.

## What the invariants showed

- `ready` has branches for a requester that holds a permit, has none, or is
  being stopped. The model keeps all of them; under the invariant none is ever
  taken (`OnlyTwoWaysToBeReady`).
- A wildcard can make an output named `.` or `..`: the rule `@/* = copy a*`
  makes `.` of a source file `a.`, which the served tree cannot take. What rules
  expand to can be laid out if and only if no wildcard makes such a name
  (`ManifestsLayOut`), and whether any source of ordinary names can bring that
  about is to be seen from the rules alone (`ManifestsAlwaysLayOut`).
- The declaration of `store` says that a failed store leaves the output
  unrecorded. The code leaves the record there was, so that is so if and only if
  there was none (`FailedStoreUnrecordsIff`, `FailedStoreMayLeaveARecord`).
- A build is kept under the command in force as it finishes. That is the command
  it was run by if and only if no other had taken its place by then
  (`RecordedUnder`); otherwise the record stands until the change of rules
  invalidates its output (`KeptUnderAnother`, `RecordsAreCurrent`).
- A take-back refused for want of memory, to an attempt with nothing else waiting,
  leaves it running without a permit: the one answer that breaks the invariant
  (`OnReacquiredKeepsInv`).
- An open may find nothing to wait for only if its output is undeclared, or
  idle and fresh (`OpenWaitsOrIsFresh`).

## Model

| member | source | states |
|---|---|---|
| Manifest.MatchesIffFilled | src/manifest.cpp:104-117 | a name matches a pattern exactly when it is the pattern with its star replaced by a non-empty text, and its stem is that text |
| Manifest.StemOfFilled | src/manifest.cpp:135-150 | filling a pattern and reading the stem back is the identity, so distinct stems make distinct names |
| Manifest.OverlapsIffSomeNameMatchesBoth | src/manifest.cpp:119-130 | `overlaps` holds if and only if some ordinary file name matches both patterns |
| Manifest.Instantiate | src/manifest.cpp:135-161 | the loop over the command yields the rule a wildcard stands for at a name, or none (what that rule is, `InstantiationIs` and the laws of `Substitute` say) |
| Manifest.InstantiationIs | src/manifest.cpp:135-161 | a wildcard stands for a rule at a name if and only if the name is its pattern filled, and that rule has its action, and its output and text filled with the same stem |
| Manifest.SubstituteAtStar | src/manifest.cpp:149-153 | each star of the text becomes the stem, where it is |
| Manifest.SubstituteKeepsRest | src/manifest.cpp:149-153 | and text without a star stays as it is |
| Manifest.SubstituteLeavesNone | src/manifest.cpp:149-153 | a star is left if and only if there was one and the stem has one |
| Manifest.ConflictIffContested | src/manifest.cpp:348-441 | two rules conflict if and only if they claim one path: as an output, or one as an output and one as a directory, a wildcard claiming its suffix where it is |
| Manifest.DistinctRulesNeverCollide | src/manifest.cpp:348-441 | two rules that do not conflict never make equal or nested paths, for any stems whatever |
| Manifest.DistinctStemsNeverCollide | src/manifest.cpp:171-194 | one rule makes different, unnested paths of different stems |
| Manifest.ExpansionsNeverCollide | src/manifest.cpp:348-449 | in a manifest free of conflict a path is made by at most one rule and stem, and no made path is above another |
| Manifest.FilledNameIsOrdinary | src/manifest.cpp:155-157 | exactly when a name filled from an ordinary stem fails to be an ordinary name: the dots |
| Manifest.OrdinarySourceMayMakeADot | src/manifest.cpp:135-161 | a rule and an ordinary source name whose output is named `.`, so the exception above is real |
| Parse.ParentClashes | src/manifest.cpp:359-386 | the walk up the parents finds a clash if and only if some directory above is a declared file or ends in a suffix banned where it is |
| Parse.Clashes | src/manifest.cpp:348-439 | the checks against the indexes of files, directories and banned suffixes reject a rule if and only if it conflicts with some rule accepted before |
| Parse.Declare | src/manifest.cpp:440-449 | accepting a rule keeps the indexes exactly those of the accepted rules |
| Parse.ReadLines | src/manifest.cpp:208-462 | the loop accepts exactly the well-shaped lines that conflict with none accepted before, and reports every other |
| Feeds.AllowVia | src/manifest.cpp:497-501 | one round of the closure, in place over the matrix it reads, allows paths through exactly one more rule |
| Feeds.ViaIffReaches | src/manifest.cpp:478-503 | paths through any of the rules are exactly reachability in the base relation |
| Feeds.Close | src/manifest.cpp:482-503 | the matrix left is exactly reachability: `a` feeds `b` if and only if a chain of rules leads from `a` to `b` |
| Expand.FeedsDirectlyIff | src/manifest.cpp:478-496 | one rule feeds another directly if and only if some output is one that the one could make and the other matches |
| Parse.FindFallen | src/manifest.cpp:464-513 | dropped are exactly the copies of undeclared outputs and the rules that could reach themselves |
| Parse.Parse | src/manifest.cpp:163-525 | the rules left are the accepted ones that do not fall, in order, and the errors are of exactly the lines rejected or fallen |
| Parse.AcceptedIsConflictFree | src/manifest.cpp:348-449 | whatever the lines, the accepted rules are pairwise free of conflict |
| Parse.ShapedIs | src/manifest.cpp:250-346 | which lines are well shaped, and what the rule of each is |
| Parse.RejectedIffContested | src/manifest.cpp:348-441 | a well-shaped line is rejected if and only if a line accepted before it claims a path that it claims |
| Parse.CopiesAreDeclared | src/manifest.cpp:464-476 | every copy of an output left standing copies one that a simple rule declares |
| Parse.KeptIff | src/manifest.cpp:505-520 | a rule is left standing if and only if its line was accepted, copies no undeclared output and cannot feed itself |
| Parse.KeptRulesStand | src/manifest.cpp:505-520 | errors or not, the rules left are free of conflict and none can feed itself |
| Parse.ErrorFreeManifest | src/manifest.cpp:163-525 | with no error every line stands as its own rule, nothing conflicts and nothing feeds itself |
| Expand.ExpandBase | src/builddirectorytree.cpp:178-212 | every output of a simple rule, and of a wildcard over the source files there are, is declared, and nothing that is not forced |
| Expand.BasedIff | src/builddirectorytree.cpp:178-212 | declared before any wildcard over outputs is just what simple rules name, and what others make of the files their directory lists, and of no directory |
| Expand.CommandsAreRules | src/builddirectorytree.cpp:178-242 | each output's command is some rule's: its action, and its text, with the output's stem for every star of a wildcard's |
| Expand.MatchOutputs | src/builddirectorytree.cpp:223-234 | finds exactly the rules a wildcard stands for over the outputs so far that would add one |
| Expand.Round | src/builddirectorytree.cpp:217-239 | a round stays within every closed set, and one that adds nothing has found a closed set |
| Expand.ExpandRules | src/builddirectorytree.cpp:178-242 | ends for every rule set in which none feeds itself, with the least outputs closed under every wildcard, each with a command some rule makes for it |
| Expand.LastLevelIsClosed | src/builddirectorytree.cpp:214-217 | with no rule feeding itself, as many rounds as there are rules find everything: why the loop ends |
| Expand.ExpansionIsAntichain | src/builddirectorytree.cpp:178-242 | no declared output is inside another, none is the root, and each command is for its own output |
| Expand.ExpansionIgnoresOrder | src/builddirectorytree.cpp:176-242 | the same rules in any order expand to the same commands |
| MadeNames.MadePathIsNormal | src/manifest.cpp:135-161 | what a wildcard makes is a path in its normal form if and only if its name is not one of the dots |
| MadeNames.NormalUnlessDotted | src/builddirectorytree.cpp:178-242 | everything rules expand to is in its normal form if and only if no wildcard among them makes a name of the dots |
| MadeNames.SafeRulesStayNormal | src/builddirectorytree.cpp:178-242 | rules none of which can make such a name expand to none, over every source of ordinary names |
| MadeNames.UnsafeRuleDots | src/manifest.cpp:135-161 | rules of which one can be fed just that stem - by an ordinary source file, or through other rules, by an output - do make such a name over some source of ordinary names |
| MadeNames.NeverDotsIff | src/builddirectorytree.cpp:178-242 | with no rule feeding itself, no source of ordinary names ever has such a name made if and only if no wildcard can be fed so, which is a condition on the rules alone |
| MadeNames.DotThroughManifest | src/manifest.cpp:163-525 | `@/* = copy a*` is accepted without an error, and over a source file `a.` declares an output whose path comes to the root |
| CoordinatorModel.WaitGraphEdges | src/buildcoordinator.cpp:547-572 | the wait graph's edges are exactly the blocked waits of attempts and pending attempts' predecessors |
| CoordinatorInvariants.CreateKeepsInv | src/buildcoordinator.cpp:344-354 | a new attempt, waiting behind another or not, closes no cycle, leaves the hurried set closed and the permit protocol kept |
| CoordinatorInvariants.BlockKeepsInv | src/buildcoordinator.cpp:600-636 | a wait that `path_to` found no path against keeps the graph acyclic, the hurried set closed and the permit protocol |
| CoordinatorInvariants.BlockKeepsHurry | src/buildcoordinator.cpp:629-633 | hurrying what the target waits on closes the hurried set again, the new edge included |
| CoordinatorInvariants.DoomKeepsInv | src/buildcoordinator.cpp:600-614 | stopping every running attempt of a cycle keeps the invariant |
| CoordinatorInvariants.OnlyTwoWaysToBeReady | src/buildcoordinator.cpp:448-474 | a blocked request's attempt is never stopping and never without, or holding, a permit, so those branches are never taken |
| CoordinatorInvariants.CompleteKeepsInv | src/buildcoordinator.cpp:673-686 | completing keeps the invariant, and leaves nothing blocked on the attempt |
| CoordinatorInvariants.OnReacquiredKeepsInv | src/buildcoordinator.cpp:482-510 | a take-back answered, by whatever answer, keeps the invariant if and only if it is granted, or its attempt is being stopped or has a request that still waits |
| CoordinatorInvariants.CancelWaitKeepsInv | src/buildcoordinator.cpp:653-671 | a request that gives up keeps the invariant: the last to leave starts a take-back |
| CoordinatorInvariants.FinishKeepsInv | src/buildcoordinator.cpp:700-719 | the end of an attempt's work keeps the invariant |
| CoordinatorInvariants.OnOuterStopKeepsInv | src/buildcoordinator.cpp:529-540 | a stop from outside, at whatever moment, keeps the invariant |
| CoordinatorBooks.AnswerKeepsBooks | src/buildcoordinator.cpp:396-406 | an answered wait leaves every list and its edge count, and the books are again exactly those of the waits |
| CoordinatorBooks.ReadyKeepsBooks | src/buildcoordinator.cpp:475-478 | a wait ready but not answered blocks no longer, yet is still listed as its requester's |
| CoordinatorBooks.LinkKeepsBooks | src/buildcoordinator.cpp:617-624 | a wait added is on every list, and counted on its edge |
| CoordinatorBooks.BooksHoldGraph | src/buildcoordinator.cpp:566-572 | the keys of the edge counts, and a pending predecessor, are exactly the successors in the wait graph |
| CoordinatorRounds.ReadyOneMore | src/buildcoordinator.cpp:680-683 | readying waits one by one comes to readying them at once, effects included |
| CoordinatorRounds.DoomOneMore | src/buildcoordinator.cpp:603-610 | dooming the attempts of a cycle one by one comes to dooming them at once |
| CoordinatorRounds.ReacquiredAsOne | src/buildcoordinator.cpp:485-508 | setting the permit, answering, giving it back if something still waits and releasing the drain, in that order, is what a take-back's answer does |
| CoordinatorRounds.NewWaitClosedBelow | src/buildcoordinator.cpp:629-633 | linking a wait that closes no cycle leaves what its target waits on closed under hurry, so the search may stop at what is hurried |
| CoordinatorRounds.HurryEnds | src/buildcoordinator.cpp:371-394 | a search that stops at hurried attempts ends with all the target waits on hurried, and no other |
| Coordinator.EraseOne | src/buildcoordinator.cpp:38-43 | takes out the first such value and nothing else |
| Coordinator.Coordinator.RemoveEdge | src/buildcoordinator.cpp:356-361 | one edge fewer between the pair, and no zero entry left behind |
| Coordinator.Coordinator.Answer | src/buildcoordinator.cpp:396-406 | answers exactly that wait, notes the answer once, and the books still agree |
| Coordinator.Coordinator.Ready | src/buildcoordinator.cpp:448-479 | for every branch: answered, canceled, or ready with a take-back started or shared |
| Coordinator.Coordinator.CancelWaitsOf | src/buildcoordinator.cpp:512-518 | ends every live wait of an attempt as canceled, and no other |
| Coordinator.Coordinator.StopAttempt | src/buildcoordinator.cpp:520-527 | marks it, ends its waits, and stops the take-back under way if there is one |
| Coordinator.Coordinator.GiveBackPermitIfWaiting | src/buildcoordinator.cpp:417-424 | a held permit goes back if and only if a request still blocks and the attempt is not stopping |
| Coordinator.Coordinator.OnOuterStop | src/buildcoordinator.cpp:529-540 | stops a running attempt once; otherwise only passes the stop on; the whole invariant and the books are kept |
| Coordinator.Coordinator.OnReacquired | src/buildcoordinator.cpp:482-510 | everything ready by then is answered together, with its result or canceled; the books are kept whatever the answer, and the whole invariant exactly when that lemma says |
| Coordinator.Coordinator.CancelWait | src/buildcoordinator.cpp:653-671 | answers a live wait as canceled, once; a take-back starts exactly when the last request leaves an attempt without a permit |
| Coordinator.Coordinator.Complete | src/buildcoordinator.cpp:673-686 | the loop over a list that shrinks under it hands the result to exactly the waits blocked on the attempt |
| Coordinator.Coordinator.OnPermit | src/buildcoordinator.cpp:688-698 | the attempt runs, holding its permit, and is found by its output |
| Coordinator.Coordinator.Finish | src/buildcoordinator.cpp:700-719 | it can be found no more; it drains at once, or once its take-back is over |
| Coordinator.Coordinator.CreateAttempt | src/buildcoordinator.cpp:344-354 | a predecessor already over is dropped; the whole invariant and the books are kept |
| Coordinator.Coordinator.Run | src/buildcoordinator.cpp:800-807 | queued, behind nothing any more; the whole invariant and the books are kept |
| Coordinator.Coordinator.CountEdges | src/buildcoordinator.cpp:744-749 | the count kept is the number of blocked waits between the two |
| Coordinator.Coordinator.PathTo | src/buildcoordinator.cpp:543-575 | ends, and returns nothing if and only if no path exists, otherwise a real path listed from its end |
| Coordinator.Coordinator.Hurry | src/buildcoordinator.cpp:371-394 | ends; hurries all that the target waits on, directly or not, and promotes each newly hurried once |
| Coordinator.Coordinator.DoomCycle | src/buildcoordinator.cpp:603-610 | stops and dooms exactly the attempts on the path that run and are not stopping |
| Coordinator.Coordinator.Wait | src/buildcoordinator.cpp:577-638 | answers at once, or dooms a real cycle if and only if there is one, or adds a wait that closes none; the whole invariant is kept whichever it is |
| QueueLines.WithoutDistinct | src/buildqueue.hpp:122-136 | taking a waiter out leaves each other in line once, and that one not at all |
| QueueLines.EnqueueOrderly | src/buildqueue.hpp:161-174 | a newcomer is in line once, and a slot is free only if nobody is in line |
| QueueLines.ReleaseOrderly | src/buildqueue.hpp:196-219 | a slot given back goes to the first in line, or is free because nobody is |
| QueueLines.ServedInOrder | src/buildqueue.hpp:196-219 | a slot given back goes to the oldest taking one back, then to who was promoted first, then to who waited longest, and nobody else's place changes |
| QueueLines.ReleaseBringsCloser | src/buildqueue.hpp:196-219 | each slot given back brings everyone in line one closer, and is theirs once nobody is ahead |
| QueueLines.NewcomerAhead | src/buildqueue.hpp:161-174 | a newcomer gets ahead of a waiter only by being in a line served before that waiter's |
| BuildQueue.Waiters.Push | src/buildqueue.hpp:101-109 | the linked list gains the waiter at its end |
| BuildQueue.Waiters.Pop | src/buildqueue.hpp:111-120 | the linked list gives up its oldest waiter, if any, and keeps the rest in order |
| BuildQueue.Waiters.Remove | src/buildqueue.hpp:122-136 | takes the waiter out from wherever it is, first, last or between, and says whether it was there |
| BuildQueue.BuildQueue.TryTake | src/buildqueue.hpp:152-159 | takes a slot exactly if one is free |
| BuildQueue.BuildQueue.Enqueue | src/buildqueue.hpp:161-174 | appends to the one line that is its, and its ticket points at it from then on |
| BuildQueue.BuildQueue.Dequeue | src/buildqueue.hpp:176-187 | takes it out of whichever line it is in, its ticket pointing at nothing, and says whether it was in one |
| BuildQueue.BuildQueue.Release | src/buildqueue.hpp:196-219 | hands the slot to the first of the three lines in order, or frees it; tickets stay exact |
| BuildQueue.BuildQueue.Promote | src/buildqueue.hpp:284-296 | moves the waiter, if it is in line and was not promoted, behind all promoted before; later arrivals under the ticket go there too |
| QueueWaits.EventMoves | src/buildqueue.hpp:153-296 | no event puts a waiter further back but an arrival or a promotion of a class served before its own |
| QueueWaits.WaitIsBounded | src/buildqueue.hpp:153-296 | over every run a waiter waits through no more slots given back than were ahead of it, plus those that got ahead since |
| SlotOperations.StepKeeps | src/buildqueue.hpp:386-525 | whichever of start, stop, release, resume, shutdown and promotion comes next, the slots add up, and an operation is in line exactly while it waits |
| SlotOperations.EveryRunConserves | src/buildqueue.hpp:153-219 | in every run, free slots, slots held and slots on their way always make the concurrency; a free slot means nobody is in line; none completes twice, and none is stopped without a stop or a shutdown |
| SlotOperations.NoneGoesBack | src/buildqueue.hpp:433-524 | no step undoes an operation's progress or changes how it completed |
| SlotOperations.StopsTakeEffect | src/buildqueue.hpp:500-524 | in every run an operation stopped before a slot was given to it, in line or not yet, completes stopped |
| SlotOperations.GoesOnOrWaits | src/buildqueue.hpp:494-524 | an operation started can go on by itself, or is in line while every slot is taken |
| PermitsOpen.OpenKeeps | src/buildcoordinator.cpp:617-638 | opening a wait - linked, hurried, promoted in the queue, a permit given back under the lock and passed on - keeps the composed invariant |
| PermitsRuns.StepKeeps | src/buildcoordinator.cpp:344-719 | every step of the composed machine keeps the invariant of both parts, and the accounting between them |
| PermitsRuns.PermitProtocol | src/buildcoordinator.cpp:408-527 | an attempt with a live request runs, is not stopping and does not hold a permit; one ready to be answered is taking its permit back; released means all its requests block |
| PermitsRuns.EveryRunIsSafe | src/buildcoordinator.cpp:344-719 | in every state of every run: no cycle, the hurried set closed, slots conserved, each wait woken once and only when answered, every attempt without a permit waiting for something |
| PermitsRuns.HurriedGoAhead | src/buildcoordinator.cpp:371-394 | in every run whatever a hurried attempt waits on or behind, through however many, is hurried, and none of them waits in line among those that are not |
| PermitsRuns.OneRunsEach | src/buildcoordinator.cpp:693-697 | in every run two attempts at one output never run at once: what `on_permit` asserts |
| PermitsRuns.AnswersAreResults | src/buildcoordinator.cpp:396-510 | in every run an answered wait has its target's result or was canceled, and one that blocks has a target not completed |
| PermitsLaw.StepsWait | src/buildcoordinator.cpp:344-719 | what becomes of each wait by each step: answered once, with its target's result as that completes or its permit comes back, canceled as it gives up or its attempt ends or is stopped, and otherwise as it was |
| PermitsLaw.CompletionAnswersAll | src/buildcoordinator.cpp:673-686 | what completes an attempt answers every wait on it from outside any build with its result, and has the rest ready with it |
| PermitsLaw.AnsweredForCause | src/buildcoordinator.cpp:396-510 | in every run each answer has its cause, with the result that cause gives |
| PermitsLaw.CanceledForCause | src/buildcoordinator.cpp:396-719 | in every run a wait is canceled only if it gave up, its attempt ended or was stopped, or its target itself came to that |
| PermitsLaw.ReadyIs | src/buildcoordinator.cpp:448-479 | for every state of a requester's permit, what becomes of a wait whose answer is known, and of no other |
| PermitsLaw.StepsAttempt | src/buildcoordinator.cpp:344-719 | which step has an attempt start, run, end, be stopped, doomed, hurried and completed, and with what result: each of these if and only if |
| PermitsLaw.StepsPermit | src/buildcoordinator.cpp:408-527 | by which step an attempt's permit is held, given back or being taken back: given back just while requests wait, taken back just for an answer or the last request to give up |
| PermitsLaw.DoomedForCause | src/buildcoordinator.cpp:600-614 | in every run whatever is doomed was running on the cycle that some request was about to close |
| PermitsLaw.HurriedForCause | src/buildcoordinator.cpp:371-394 | in every run whatever is hurried is what an opener in a hurry waited on or behind |
| PermitsLaw.ResultForCause | src/buildcoordinator.cpp:839-845 | in every run an attempt's result is what its work came to, or, doomed, the error of the cycle |
| PermitsLaw.StopsAreAsked | src/buildcoordinator.cpp:520-540 | whoever is marked as stopping while its command runs has that command asked to stop, and nobody else |
| PermitsLaw.StoppedInTimeNeverRuns | src/buildcoordinator.cpp:808-830 | in every run a build stopped before it was given a slot never runs |
| PermitsLaw.StoppedTakeBackGetsNone | src/buildcoordinator.cpp:520-527 | in every run a take-back stopped before it was given a slot is refused one |
| PermitsRuns.SinkGetsOn | src/buildcoordinator.cpp:408-719 | an attempt not completed, and waiting on none such, has a step of its own due whatever state its permit and request are in, or is in line for a slot whose holder has one due |
| PermitsRuns.FindSink | src/buildcoordinator.cpp:600-615 | from any attempt not completed, a path in the acyclic graph leads to one that waits on none such |
| PermitsRuns.AlwaysGoesOn | src/buildcoordinator.cpp:408-510 | with a slot to share, some attempt that holds up an unanswered wait - its target or what that waits on, or, once ready, its own - has a step due that is neither a command opening something more nor the giving up of an attempt, or is in line for a slot whose holder has; one not yet started only with nothing before it |
| PermitsRuns.NoRunDeadlocks | src/buildcoordinator.cpp:408-719 | no run ever comes to rest with a wait unanswered: what holds it up always gets on |
| PermitsSteps.RetireKeeps | src/buildcoordinator.cpp:673-686 | an attempt that is only to be completed, and never to run, keeps the invariant, may be completed at once, and no longer keeps one made behind it from starting |
| PermitsDoom.NoneSucceedsOnTheDoomed | src/buildcoordinator.hpp:65-69 | in every run a request answered by an attempt that was on a cycle was told of the cycle or canceled, whatever the attempt's command came to |
| PermitsTakeBacks.StepTakes | src/buildcoordinator.cpp:436-510 | a take-back starts only as some request of its attempt stops blocking |
| PermitsTakeBacks.NothingSpins | src/buildcoordinator.cpp:498-503 | in every run permits given back number at most one more than requests that ever stopped blocking |
| CacheRecords.InputNamesItsOutput | src/builddirectorytree.cpp:989-997 | an input under `@` names the output it was made from, and no other input names that output |
| DependencyIndex.InverseIsUnique | src/builddirectorytree.cpp:1183-1204 | there is one reverse index without empty entries for given dependencies, so nothing lingers in it |
| DependencyIndex.ReachedIsLeast | src/builddirectorytree.cpp:1374-1398 | what an invalidation reaches is the least set that holds what is declared of its arguments and every reader of what it holds |
| DependencyIndex.Index.UpdateDependents | src/builddirectorytree.cpp:1186-1204 | the index stays the exact inverse of the dependencies, repeated inputs and empty sets included |
| DependencyIndex.Index.Forget | src/builddirectorytree.cpp:1291-1292 | nothing of a removed rule is left on either side of the index |
| DependencyIndex.Outputs.Invalidate | src/builddirectorytree.cpp:1374-1398 | ends on cyclic reads; marks stale and bumps once exactly the declared outputs its arguments reach through readers; lists for building exactly those opened and idle |
| Restore.HoldsUnfolds | src/builddirectorytree.cpp:1082-1085 | a record holds if and only if its rule, stamps and content are as they were and every output it read holds with the same content |
| Restore.HoldsIsLeast | src/builddirectorytree.cpp:1082-1099 | and that is the least such relation |
| Restore.CycleNeverHolds | src/builddirectorytree.cpp:1084-1085 | a record that comes round to itself, through however many reads, never holds |
| RestoredMeaning.RestoredIsBuilt | src/builddirectorytree.cpp:1082-1132 | what a record that holds has its output serve is what building it now, by rules and sources as they are, would come to, all it reads built first |
| RestoredMeaning.UnchangedHolds | src/builddirectorytree.cpp:1082-1132 | with no rule, source or content changed, and none reading itself, every record holds |
| Restore.Restoring.RecordHolds | src/builddirectorytree.cpp:1087-1099 | ends, and answers exactly that, whatever was asked before and however it was reached: marker and memo change no answer |
| Restore.Restoring.CheckRecord | src/builddirectorytree.cpp:1104-1132 | returning early is no loss, and content is kept for exactly what holds |
| Restore.Restoring.RestoreAll | src/builddirectorytree.cpp:1137-1180 | in whatever order records come, those that hold are served as built, not stale, with what they read and the hash they were kept under, and exactly the others are dropped |
| BuildTreeInvariant.RebuildIsClaimable | src/builddirectorytree.cpp:928-936 | what is built again as a build settles is declared, stale and idle, as a claim demands |
| BuildTreeInvariant.StepKeepsWaiters | src/builddirectorytree.cpp:607-965 | every attempt handed out stays in exactly one place that sees to its waiters |
| BuildTreeInvariant.StepKeepsFresh | src/builddirectorytree.cpp:851-937 | whatever step comes next, a declared output neither stale nor being built serves a build nothing has invalidated |
| BuildTreeInvariant.StepKeeps | src/builddirectorytree.cpp:607-1405 | every step keeps waiters, freshness and the cache's agreement with the counts |
| BuildTreeInvariant.NoWaiterIsLost | src/builddirectorytree.cpp:607-714 | in every run each attempt handed out has completed once, or is under way, or about to be released, or is the next of an output in flight and, while declared, stale |
| BuildTreeInvariant.OneBuildEach | src/builddirectorytree.cpp:692-714 | an output in flight has exactly one build under way |
| BuildTreeInvariant.OpenWaitsOrIsFresh | src/builddirectorytree.cpp:603-651 | an open waits on an attempt not completed, or its output is undeclared, or idle, fresh and no trace |
| BuildTreeLaw.OpenWaitsForLatest | src/builddirectorytree.cpp:607-651 | what an open waits for has not begun, or was claimed at the count of the open: never a build that a change before the open made out of date |
| BuildTreeLaw.OpensGetTheirChanges | src/builddirectorytree.cpp:607-937 | in every run what an open waits for builds its output as it was at the open or later, if it ever builds |
| BuildTreeInvariant.NothingStaleIsServedAsFresh | src/builddirectorytree.cpp:851-937 | in every run, rules coming and going mid-build included: declared, not stale and idle means restored and never invalidated, or the last claimed build succeeded, nothing invalidated it since its claim, and the bytes and dependencies are its own |
| BuildTreeReads.StepsReads | src/builddirectorytree.cpp:862-900 | a success replaces what its output is recorded as having read, a failure that read something too, and nothing else changes that but its rule going |
| BuildTreeReads.ReadsForCause | src/builddirectorytree.cpp:862-900 | in every run what is recorded as read by a build is what that build's finish, or failure, noted |
| BuildTreeReads.RestoredReads | src/builddirectorytree.cpp:1137-1180 | in every run what is recorded of an output still as restored is what it was restored with |
| BuildTreeReads.FreshServesWhatItRead | src/builddirectorytree.cpp:851-937 | in every run the bytes of an output up to date are of a build that read just what is recorded, which is what invalidations follow |
| BuildTreeFlights.StepsFlight | src/builddirectorytree.cpp:607-937 | when a build of an output begins, when one is called for again, and when it counts as opened, if and only if, for every step |
| BuildTreeFlights.RebuiltAtOnce | src/builddirectorytree.cpp:918-936 | in every run an opened output invalidated while it was built is being built again, at the present count, as soon as that settles, unless it was stopped |
| BuildTreeFlights.RebuiltForCause | src/builddirectorytree.cpp:918-936 | and one is built again as it settles only if something invalidated it since its claim |
| BuildTreeKept.ServedForCause | src/builddirectorytree.cpp:882-890 | in every run the bytes an output serves of a build were written by it |
| BuildTreeKept.SucceededForCause | src/builddirectorytree.cpp:851-890 | in every run a build counts as a success only once its bytes are written |
| BuildTreeKept.RecordedForCause | src/builddirectorytree.cpp:1002-1053 | in every run a record was stored, stamped throughout, after a check that found its output invalidated no more often than at its build's claim |
| BuildTreeKept.StepsCache | src/builddirectorytree.cpp:1042-1067 | a store that does not fail leaves its build's record if that is fit and stamped, and no record otherwise; seeing to an invalidation leaves none of what it reached; nothing else touches a record |
| BuildTreeKept.TracesAreNotKept | src/builddirectorytree.cpp:872-878 | in every run no record is of a trace |
| BuildTreeKept.FitBuildsAreRecorded | src/builddirectorytree.cpp:868-1053 | a build noted as it finished and found fit stays so until it is stored, whatever comes between |
| BuildTreeKept.FitIsRecorded | src/builddirectorytree.cpp:1042-1050 | and stored, stamped and without a failure, is what is recorded of its output |
| BuildTreeInvariant.RecordsDoNotOutliveInvalidations | src/builddirectorytree.cpp:1002-1067 | in every run, once a drop of an output has been made, any later record of it is of an attempt of this run at that output, claimed when it had been invalidated at least as often as the drop knew: never of a build under way when what dropped it came |
| BuildTreeInvariant.DropsStay | src/builddirectorytree.cpp:1056-1067 | no later step forgets how far the drops made so far reach |
| BuildTreeInvariant.ClaimsStay | src/builddirectorytree.cpp:692-714 | the output, count and command noted as a build is claimed are never changed |
| BuildTreeInvariant.RecordsAreCurrent | src/builddirectorytree.cpp:1002-1067 | in every run, with no drop pending or failed, a record is of a build nothing has invalidated since its claim, and has the command of that claim unless a change of rules has still to invalidate it |
| BuildTreeInvariant.RecordedUnder | src/builddirectorytree.cpp:871-876 | in every run a record has the command of the rule its build's finish found, and that is the command the build was claimed under if and only if the rule was still the same then |
| BuildTreeInvariant.KeptUnderAnother | src/builddirectorytree.cpp:871-876 | a run, for any two commands, that leaves a record under a command its build was not claimed under |
| BuildTreeInvariant.InvalidateMarksReaders | src/builddirectorytree.cpp:1386-1396 | whatever read a marked output is marked with it, and counted |
| BuildDirectoryTree.BuildDirectoryTree.ClaimBuild | src/builddirectorytree.cpp:692-714 | the attempt an open already waits on is the one that builds; the count is noted at the claim |
| BuildDirectoryTree.BuildDirectoryTree.BringUpToDate | src/builddirectorytree.cpp:607-651 | each branch returns the attempt the machine's open is to wait on, and leaves the machine's state |
| BuildDirectoryTree.BuildDirectoryTree.StartBuild | src/builddirectorytree.cpp:719-732 | starts a build exactly if the output is declared, stale and idle |
| BuildDirectoryTree.BuildDirectoryTree.RecordInputs | src/builddirectorytree.cpp:862-881 | what a success read replaces what was recorded, unless its rule has gone |
| BuildDirectoryTree.BuildDirectoryTree.Settle | src/builddirectorytree.cpp:892-937 | rebuilt, orphaned or left stale exactly as the machine has it; a rebuild's claim meets its precondition |
| BuildDirectoryTree.BuildDirectoryTree.Invalidate | src/builddirectorytree.cpp:1374-1398 | the worklist leaves the state of the machine's invalidation, and eager are those opened and idle |
| BuildDirectoryTree.BuildDirectoryTree.ApplyRules | src/builddirectorytree.cpp:1253-1295 | outputs come stale, go leaving nothing but a bumped count, and keep their attempts while being built |
| BuildDirectoryTree.BuildDirectoryTree.AddReaders | src/builddirectorytree.cpp:1308-1321 | adds exactly what is recorded as having read any of the inputs |
| BuildDirectoryTree.BuildDirectoryTree.CollectReaders | src/builddirectorytree.cpp:1308-1321 | the middle section of a change of rules adds just what the machine's does: all that is recorded as having read anything that came or went |
| BuildDirectoryTree.BuildDirectoryTree.Reload | src/builddirectorytree.cpp:1248-1327 | the three sections in their order, where nothing comes between them: exactly the added outputs and what is reached from those changed, or that read one that came or went, is newly stale |
| RuleChanges.ChangeInvalidates | src/builddirectorytree.cpp:1253-1327 | in every run, whatever comes between the sections of a change of rules, an output whose rule changed, or that had read one that came or went, is stale and counted as invalidated by the end of it, unless it has gone by then or what it read is recorded anew |
| RuleChanges.ChangeInvalidatesOnly | src/builddirectorytree.cpp:1253-1327 | and what a change starts to invalidate from is just what changed or is to be built, and what had read anything that came or went when the readers were added |
| RuleChanges.PartIsRun | src/builddirectorytree.cpp:1253-1327 | with its changes of rules cut up so, the tree's part of a run is a run of its machine, so all that holds of those holds here |
| BuildDirectoryTree.BuildDirectoryTree.AffectedBy | src/builddirectorytree.cpp:1349-1368 | a change of the source affects exactly what read what changed, or everything if that is unknown |
| CacheKeeping.NoneOnceNone | src/builddirectorytree.cpp:1007-1032 | one input that cannot be stamped, wherever it comes, leaves the build unkept |
| CacheKeeping.AllStamped | src/builddirectorytree.cpp:1007-1032 | when a build is kept every input is in its stamps as what it is: an output by its hash, a source by its stamp |
| CacheKeeping.Keeper.ReadIfCurrent | src/builddirectorytree.cpp:1002-1020 | under the tree's lock: nothing if anything invalidated the output since its build was claimed, otherwise the stamps of the outputs it read |
| CacheKeeping.Keeper.LookUp | src/builddirectorytree.cpp:1002-1020 | that look takes the machine's step, which finds the build fit to be kept exactly if the look does |
| CacheKeeping.Keeper.StoreOrDrop | src/builddirectorytree.cpp:1021-1053 | stores the record of a build fit to be kept and stamped throughout, drops the output's record otherwise, and either way takes the machine's step, the records on disk again being those it has |
| CacheKeeping.Keeper.ForgetInCache | src/builddirectorytree.cpp:1056-1067 | drops the records of the outputs invalidated, or none, as the machine's step does |
| CacheKeeping.Keeper.RecordBuild | src/builddirectorytree.cpp:862-881 | a finish keeps the hash of the bytes it brought, with what was read, if the output is still declared |
| CacheKeeping.Keeper.TakeRules | src/builddirectorytree.cpp:1279-1292 | new rules take the hashes of outputs no longer declared along |
| ContentHashes.StepKeepsHashes | src/builddirectorytree.cpp:862-1292 | whatever step is taken, exactly the declared outputs that have content have a hash, and it is of the content they have or, their finish under way, are about to have |
| ContentHashes.HashesAreOfServed | src/builddirectorytree.cpp:862-1292 | in every run, with nothing being written, a declared output that was built or restored has the hash of the bytes served, and a placeholder has none |
| CacheKeeping.StampsAreOfContent | src/builddirectorytree.cpp:1012-1024 | what is stamped of an output that a build read is the hash of the content that output has at the time |
| BuildAttempts.ClaimMayCreate | src/builddirectorytree.cpp:695-700 | claiming an idle output, the tree may make its attempt: every other at the output is over, though it may not be completed yet |
| BuildAttempts.NextMayCreate | src/builddirectorytree.cpp:627-634 | and the next of an output being built, behind the one being built: any third is over |
| BuildAttempts.OwnStepLeaves | src/buildcoordinator.cpp:344-719 | no step of the coordinator or queue alone completes an attempt, starts another, dooms what has come back, or revives what is over |
| WholeBuild.AskedIsHad | src/builddirectorytree.cpp:607-965 | whatever step the tree takes, all it asks of the coordinator may be taken in order, and what the two agree on is kept |
| WholeRuns.StepKeeps | src/builddirectorytree.cpp:607-1405 | every step of either keeps both invariants and what the two keep between them |
| WholeRuns.AskedIsAlwaysHad | src/builddirectorytree.cpp:607-965 | in every run of the two, what a step of the tree asks for may be had |
| WholeRuns.PartIsRun | src/buildcoordinator.cpp:344-719 | the coordinator's part of any run of the two is a run of its own machine, so all that holds of those runs holds here |
| WholeRuns.TreePartIsRun | src/builddirectorytree.cpp:607-1405 | and the tree's part is a run of the tree's machine |
| WholeRuns.NothingDoomedIsServed | src/buildcoordinator.hpp:65-69 | in every run of the two, what is served was never built by an attempt that was on a cycle |
| WholeRuns.RunsOnlyInFlight | src/builddirectorytree.cpp:692-714 | in every run of the two a command runs only as the build its output is in flight as |
| WholeRuns.LaunchedMayStart | src/buildcoordinator.cpp:800-807 | a build launched and not started may start: what its attempt was made to wait behind is over |
| WholeRuns.SuccessGoesOn | src/builddirectorytree.cpp:862-890 | a build come back with an output can record its inputs, or waits for the layout's lock held by one that can write its bytes |
| WholeRuns.NoRunDeadlocks | src/builddirectorytree.cpp:607-965 | no run of the two comes to rest with a wait unanswered: what holds it up, or is being built before it, or holds the slot it is in line for, always has a step to take |
| WholeAnswers.SuccessMeansBuilt | src/builddirectorytree.cpp:938-945 | in every run of the two an open answered with a success waited for a build that settled as one, its bytes written, and one answered with another error for one that did not |
| Paths.NormalizedTwice | src/inmemorydirectorytree.cpp:32-50 | the normal form of a path is its own normal form, and of ordinary names but for what a slash at its end leaves |
| Paths.FoldedJoins | src/inmemorydirectorytree.cpp:32-50 | where a path leads is where its second part does from where its first does |
| Paths.DotsFold | src/inmemorydirectorytree.cpp:32-50 | a name and a way back up come to nothing, a dot to nothing, and a way up from the root leads out |
| InMemoryTree.InMemoryDirectoryTree.WriteFile | src/inmemorydirectorytree.cpp:87-114 | under the asserted preconditions the one file at the path's normal form changes, and the tree stays well formed if and only if that does not end in a slash |
| InMemoryTree.InMemoryDirectoryTree.MakeDirectory | src/inmemorydirectorytree.cpp:116-135 | under the asserted preconditions one empty directory appears at the path's normal form, and the tree stays well formed if and only if that does not end in a slash |
| InMemoryTree.InMemoryDirectoryTree.Remove | src/inmemorydirectorytree.cpp:137-159 | the loop erases exactly the entry the path comes to and everything beneath it, and the tree stays well formed |
| InMemoryTree.InMemoryDirectoryTree.Ls | src/inmemorydirectorytree.cpp:196-223 | fails exactly on a path that leads out of the root or comes to no directory, and lists exactly the names with an entry in it |
| Layout.EnsureParentDirectories | src/builddirectorytree.cpp:89-98 | where no file is in the way, adds exactly the missing directories above an output and changes nothing else |
| Layout.RemoveWithEmptyParents | src/builddirectorytree.cpp:102-116 | leaves exactly the shape of the other outputs, whose bytes are untouched |
| Layout.ApplyRules | src/builddirectorytree.cpp:1297-1305 | removals then additions never break a precondition of the tree, end in exactly the shape of the new outputs, keep the bytes of those kept, and put the placeholder in those added |
| Layout.LayOut | src/builddirectorytree.cpp:1297-1305 | laying out the tree for the first time breaks no precondition of it, and leaves every output holding the placeholder |
| Layout.ExpansionIsDeclarable | src/builddirectorytree.cpp:178-242 | what rules free of conflict expand to can be laid out if and only if no wildcard makes a name of the dots |
| Layout.ManifestsLayOut | src/builddirectorytree.cpp:1245-1305 | so for what any manifest leaves standing, over any source of ordinary names: it can be laid out if and only if none of its wildcards makes such a name |
| Layout.ManifestsAlwaysLayOut | src/builddirectorytree.cpp:1245-1305 | what any manifest leaves standing can be laid out whatever its source comes to hold if and only if none of its wildcards can be fed what makes such a name |
| BuildCache.OncePerPathKeeps | src/buildcache.cpp:431-439 | of the stamps given, one for each path is recorded |
| BuildCache.OncePerPathIsFirst | src/buildcache.cpp:431-439 | of several stamps of one path it is the first that is kept |
| BuildCache.BuildCache.Read | src/buildcache.cpp:370-387 | content returned hashes to what was asked for, whatever happened to the file |
| BuildCache.BuildCache.Store | src/buildcache.cpp:389-452 | every state on the way is intact; the records change just if all steps succeed, and are as they were otherwise; content other records name stays; what the output named before goes if nobody else names it |
| BuildCache.StoredIsRecorded | src/buildcache.cpp:389-452 | a store of which every step succeeds leaves its output recorded as it was built, and every other record as it was |
| BuildCache.FailedStoreUnrecordsIff | src/buildcache.hpp:100-104 | a store that fails leaves its output unrecorded, as declared, if and only if it was unrecorded before |
| BuildCache.FailedStoreMayLeaveARecord | src/buildcache.cpp:389-452 | a second build of an output on a full disk: the first build's record is still there |
| BuildCache.BuildCache.Forget | src/buildcache.cpp:454-479 | every state on the way is intact; the records go together or not at all; content goes only if no record names it any more |
| BuildCache.BuildCache.DropIfUnreferenced | src/buildcache.cpp:502-508 | content goes exactly if no record names it and the disk lets it |
| BuildCache.BuildCache.CollectGarbage | src/buildcache.cpp:481-500 | every state on the way is intact; what is left is what records name, and what could not be deleted |
| BuildCache.CollectedIsNamed | src/buildcache.cpp:481-500 | a collection that nothing stopped leaves exactly the files that records name |
| BuildCache.CrashLeavesRecordsReadable | src/buildcache.cpp:370-508 | from any state a crash left, every committed record's content can be read and hashes to its name |
| LinkedNode.InsertBefore | src/linkednode.hpp:49-58 | in place, the ring is as it was with the node just before the position; before the head is at the end |
| LinkedNode.Remove | src/linkednode.hpp:60-66 | in place, the ring is as it was without the node, which is alone |
| LinkedNode.AloneIsRing | src/linkednode.hpp:34-35 | linked to itself means that its list is empty |
| LinkedNode.Reverse | src/iocontext.cpp:126-135 | reversing the links in place puts the tasks in the order they were pushed |
| IoContext.StepKeeps | src/iocontext.cpp:76-220 | every step, of the thread or of any other, keeps the order of tasks, where each wait is, both lists well formed, and a wake for every stack that is not empty |
| IoContext.TasksRunInOrder | src/iocontext.cpp:76-143 | in every run tasks run in push order, each once, and all have run once the thread polls with nothing pushed |
| IoContext.WaitsCompleteOnce | src/iocontext.cpp:91-118 | in every run a wait completes at most once and is then in no list, on no stack, with no poller and no callback; until then it is in a list or in hand, and its stop is armed, pushed, taken or being seen to |
| IoContext.PollsForEveryWait | src/iocontext.cpp:147-186 | whenever the thread polls, every wait started and not completed is registered and polled, and its stop can still come or has been pushed |
| IoContext.TakenCompletesByPoll | src/iocontext.cpp:188-220 | a cancellation taken off the stack has completed its wait, once, by the time the thread next polls |
| IoOutcomes.DecidedCompletesByPoll | src/iocontext.cpp:105-186 | in every run a wait whose handle is ready and that is done, or that could not be added or rearmed, or that is stopped, has completed once by the next poll, and is told just that |
| IoOutcomes.ToldForCause | src/iocontext.cpp:105-220 | in every run what a wait is told has its cause: no other wait completes |
| IoOutcomes.WatchStays | src/iocontext.cpp:172-186 | one that is ready but not done, and could be rearmed, stays with the poller, as one just added does |
| IoOutcomes.ReportedIsHandled | src/iocontext.cpp:172-186 | in every run each handle the poller reports is handled before it is asked again |
| IoContext.NeverSleepsOnWork | src/iocontext.cpp:72-104 | in every run a thread that polls while something is pushed has been woken, or a pusher is about to wake it |
| IoContext.ThreadNearsPoll | src/iocontext.cpp:120-220 | each of the thread's own steps brings it nearer to its next poll, so it always gets back to polling |
| IoContext.ThreadGoesOn | src/iocontext.cpp:120-186 | in any state the thread has a step to take if and only if, polling, it is woken or has something registered, and, elsewhere, it waits out no stop callback |
| IoContext.RestsIffNothingComes | src/iocontext.cpp:72-220 | of an invariant state: nothing is left to come but new work, stops and handles getting ready if and only if the thread polls unwoken, both stacks are empty, and nobody is about to wake it or still in a callback |
| IoContext.ComesToRest | src/iocontext.cpp:72-220 | every step that comes by itself, of whichever thread, lowers a measure, so left alone it always gets there |
| IoContext.AtRestAllIsDone | src/iocontext.cpp:72-220 | in every run, when it does, every task pushed has run and every wait started has completed once or is registered, polled and armed |
| IoThread.IoContext.Submit | src/iocontext.cpp:76-89 | a push takes the machine's step, and wakes just if the stack was empty |
| IoThread.IoContext.Cancel | src/iocontext.cpp:91-104 | a stop callback's push takes the machine's step, and wakes just if the stack was empty |
| IoThread.IoContext.TakeTasks | src/iocontext.cpp:126-135 | the loop over the stack taken leaves the tasks in the order of their pushes, and the stack empty |
| IoThread.IoContext.RunTask | src/iocontext.cpp:137-145 | the oldest is run, and it was never run before |
| IoThread.IoContext.MoveCancels | src/iocontext.cpp:191-201 | moving waits one by one, each from whichever list it is in, comes to the machine's single step |
| IoThread.IoContext.TakeCancels | src/iocontext.cpp:188-201 | each cancellation pushed ends up in the list of those to be stopped and in no other, with everything the machine keeps |
| IoThread.IoContext.Complete | src/iocontext.cpp:208-220 | a wait completes out of both lists and off the stack, for the first time |

## Left out

- An output named by dots below the root, such as `d/.`, comes to a path that ends in a slash, where the code puts a file that no listing names rightly; here such an output counts as one that cannot be laid out.
- Absolute paths with a root name, and names of a path with a slash in them, do not occur.
- Manifest.Instantiate: a command is text in which every star is replaced; shell quoting and `%out` are not modelled.
- The texts of manifest lines: a line comes cut into words, with paths normalised; a line that cannot be cut is not modelled, nor are error messages and their order.
- Requests that the tracker misses count as from no attempt; the code says those may deadlock, and no claim covers them.
- An unlimited number of permits: the composed machine has a queue of `n` slots. Progress needs `n` at least 1.
- The composed machine has no handoff shutdown; `SlotOperations` has.
- `SlotOperation`, `Slot` and `Lease` are modelled as values in a machine: their three locked sections and completions are steps, and their lifetimes and moves are not modelled.
- Attempts, waits and outputs are values in maps under identities, not heap objects; their lifetimes and aliasing are not modelled.
- The order of deferred effects: they are sets, carried out in any order.
- The pieces of the I/O thread's loop are methods between which other threads step; its exit, and the assertion there that nothing is registered, are not modelled. The lists are sequences in `IoThread` and linked rings in `LinkedNode`.
- A take-back refused because memory ran out: in `Permits` only a stop has one refused. Without a request that still waits the attempt would go on without a permit (`OnReacquiredKeepsInv`).
- A launch that throws after its attempt was queued: memory ran out.
- Memory exhaustion and other exceptions, except those that `store` rolls back; memory ordering below one lock section or one exchange.
- Processes, FUSE and the other servers of the tree, change notification, pollers and signals: a poller reports any registered waits, in any order.
- Whether an output is up to date with its sources at every moment: the code says a change during a first build goes unseen.
- The reads noted while a build runs, modification times, trace lanes and the choice of `copy`'s bytes: the inputs and results of builds are parameters.
- A source directory named `@`: its files are read as outputs by `output_named_by`, here as in the code, and nothing more is claimed of them.
- Between new rules taken on and the served tree laid out the code holds the layout's lock; the machine takes the two as one step, and `Layout` shows what the second does.
- Two contents with one hash, and a source changed without its stamp changing: `RestoredMeaning` assumes neither, and that a command's output depends on what it reads alone.
- SQLite: a transaction commits a whole map or nothing. The content hash is any function to 32 hexadecimal digits.
- `filesnapshots.cpp` and `directorytreeutil.cpp`: they would add only easier members.
- `realdirectorytree`, `processutil`, the hook and the command line are not part of this model.

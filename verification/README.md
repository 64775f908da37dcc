# Verified model of the deai core

deai is an event framework built on dynamically typed objects. This project models the parts of it
whose correctness is hardest to see by reading, and proves what they are for:

* **the object heap and its cycle collector** (`object.c`): strong and weak reference counts, member
  tables, cascading destruction, and a collector that does trial deletion in three depth-first passes;
* **two graph algorithms** (`plugins/misc/misc.cc`): bipartite matching by augmenting paths, and
  difference constraints solved by queue-based relaxation with a budget;
* **promises** (`event.c`): a stack of pending promises drained by an idle callback, closures with
  handlers, adoption of returned promises, join and any;
* **the hash table** that holds every object's members (`uthash.h`);
* **D-Bus signatures** (`plugins/dbus/signature.c`): parser, check and generator over one grammar
  (D-Bus Specification, section "Type System", without dict entries);
* **output lines** (`spawn.c`, `string_buf.c`): a child's output split into lines, however it is read.

`dafny verify dfyconfig.toml` checks everything.

## How it is organised

Code that changes things step by step is modelled step by step: classes whose fields are the fields of
the C structures, methods with the loops and branches of the source. Links between C structures are maps
from addresses. Beside each class stands a value (`State`, `Walk`, `Sig`, a sequence of entries) on which
what the code is for is proved; the methods' contracts tie the fields to that value.

| files | contents |
|---|---|
| `base.dfy` | shared vocabulary |
| `values.dfy`, `refgraph.dfy`, `heapstate.dfy`, `objects.dfy` | values, the reference graph, the invariant of the heap, the operations on it |
| `mark.dfy`, `scan.dfy`, `reap.dfy`, `collector.dfy` | the three passes and the collector |
| `tracking.dfy`, `runtime.dfy`, `heapruns.dfy` | what holds between collections: all garbage is led to by a candidate; whole runs |
| `matching.dfy`, `constraints.dfy` | the graph algorithms |
| `promises.dfy`, `scheduling.dfy`, `gathering.dfy`, `building.dfy`, `drained.dfy`, `outcomes.dfy`, `calling.dfy`, `eventloop.dfy` | meaning of a promise network, invariant of the scheduler, what each kind of promise settles to, calls and drains as functions of the state, the event module |
| `links.dfy`, `hashtable.dfy` | doubly linked lists and bucket chains, the hash table |
| `grammar.dfy`, `signatures.dfy`, `codes.dfy` | signatures as trees and as text, values against signatures, what the type codes mean |
| `stringbuf.dfy`, `lines.dfy` | the list buffer, the line splitter |

## What was found

Things that the proofs brought out, most of them statements that hold of the code only under a condition,
which is proved together with a concrete case outside it.

* `di_add_member_move` hands the caller's own reference to a member without making anything a candidate.
  All garbage stays tracked exactly when the object that receives the member is reached, before the call, from a
  candidate or from an object that keeps an outside or hidden reference without the ones given away
  (`MoveTracked`). An object that is no candidate and whose only reference is moved into itself is never collected,
  in any heap (`SelfMoveLeaks`).
* `di_add_member_clone` without a name returns `EINVAL` after copying the value, and the copy's references are
  never given back; `di_add_member_move` without a name empties the caller's variable and leaves the references
  with nobody (`Runtime.AddMemberClone`, `Runtime.AddMemberMove`).
* The comment at object.c:1466-1468 says that no roots can reach each other. With a→c→a and b→c and the candidates
  taken in the order a, b, both are isolated roots and b reaches a (`RootsReachEachOther`, `MarkTriangle`). What
  the passes really keep, and what the last pass needs, is weaker: every marked object is reached from some isolated
  root, and whoever refers to an isolated root is reached from that root (`RootsMarked`).
* One round destroys exactly the condemned objects where the collector sees all references. With `EMPTY_OBJECT`
  members it may destroy more: what the condemned lead to by the references it does not follow (`CollectRound`).
* The relaxation budget `(n - 1) * nedges` is an `unsigned int`. While it does not wrap around, the solver
  returns exactly for the satisfiable systems (`SolvedIffSatisfiable`); a budget that wraps to zero leaves only
  the systems that zeros satisfy (`SolvedIffZerosDo`), and a chain of 65537 variables is such a case
  (`WrappedBudget`).
* `bipartite_match` indexes `visited`, which has one entry for each left node, by right nodes. It goes out of bounds
  only if there is a right node beyond the number of left nodes. It must do so when the edges that come before the first
  such node in each row have no matching that covers all the rows with such a node (`BipartiteMatch`), in particular when
  some row begins with one (`FirstBeyond`); `OutOfBoundsReached` is the smallest case. In between it depends on the order
  of a row, as the searches (`Match`) go: `[[0, 9], [0, 1]]` goes out of bounds and `[[0, 9], [1, 0]]` does not
  (`OrderMatters`, `TakenFirst`, `FreeFirst`).
* The promise made by `any_promise` is said to take the value of the first promise that resolves
  (event.c:752-753). It takes that of the first input to be dispatched, and pending promises are dispatched last in, first
  out: with input 0 resolved and then input 1 before the idle callback runs, it takes input 1 (`LaterInputWins`). The
  input that it takes is the first to have resolved if and only if no input that resolved before it is still pending
  (`EarliestIffOthersLater`). Of inputs that the program settles itself, a drain takes the resolved one that is highest on
  the stack when it begins, so it takes the first to have resolved if and only if that one is the highest
  (`FirstTakenIffHighest`). A caller gets what is promised by letting the main loop run between settling two of them
  (`OnlyResolvedInputWins`).
* A promise keeps `is_pending` until its handlers have been called. A handler that returns the very promise
  it was called for is therefore appended to a promise that is not scheduled again. When nothing is pending,
  every promise with a meaning is settled if and only if no handler has done that
  (`CompleteIffNoSelfReturn`); `SelfReturnStuck` is the smallest case.
* The generator of D-Bus signatures takes an array's type from its first element and the signature check compares
  integers of any width, so an array of tuples may mix integer widths (`WidthsMixed`); an array's signature is made
  exactly if every element fits the first one's type (`Uniform`). A string literal gets a signature that the signature
  check then rejects, which makes arrays of string literals fail (`UniformMakes`, `LiteralsRefused`).
* When the generator fails, the buffer is released and a NUL is written into it all the same (signature.c:254-258).
  Unless the signature check aborts before that, this happens exactly for the values that no signature can be made of
  (`TypeSignature`), an array of one string literal among them (`LateWrite`).
* The length of a signature is computed through variants, while its text has a single character for a variant. The
  terminating NUL is therefore right behind the text if and only if every variant outside of another holds
  something with a type of one character (`Snug`); else there are characters in between that nobody has written, as
  for a variant that holds an empty tuple (`GapBeforeNul`).
* That an element of an array has no D-Bus type is lost in the computed length: it is 0 and no error for an array of
  objects (`Length`).
* The parser of D-Bus signatures returns an error for a text that cannot become a signature. For one that is the proper
  beginning of a signature it asserts or reads behind the end of the text (`Parse`).
* When a child's output ends, an unfinished last line is dropped. When the child exits before that, what is buffered is
  emitted as one more line, and after output that ends with a newline this line is empty, because every read leaves a
  piece in the buffer (`HandleExit`).

## Model

| member | source | states |
|---|---|---|
| Values.RefsOfIs | object.c:972-1093 | an object, an `EMPTY_OBJECT` and a weak object hold one reference each, of three kinds; a variant holds what is in it, an array or a tuple what its elements hold |
| Values.RefsOfConcat | object.c:972-1093 | a list of values holds the references of its elements, kind by kind |
| Values.HoldsWithout | object.c:538-545 | taking one entry out of a member table splits what the table holds into what the entry held and what the others hold |
| RefGraph.TallyUpdate | object.c:538-545 | when one object's members change, the total of all held references changes by exactly that difference |
| HeapState.CopyFreed | object.c:960-1093 | copying any nested value and freeing the copy restores every strong and weak count, whatever cascades the free could have started |
| HeapState.DestroyedFreed | object.c:699-724 | giving up the last reference, destruction cascade included, keeps counts exact and takes from sealed-off objects nothing but what was given up |
| HeapState.EndOfDyingDestroyed | object.c:609-632 | storage is released when the weak counts are gone, including the implicit one of strong references |
| HeapState.EmptyingNext | object.c:578-603 | one more member dropped from an object being finalised keeps the heap invariant and the account of what the object has given up |
| HeapState.StillSealed | object.c:578-632 | destruction elsewhere never creates a reference into a sealed-off set of objects |
| Objects.Heap.Allocate | object.c:488-518 | a new object has one strong and one weak count, no members, mark 0 |
| Objects.Heap.RefObject | object.c:657-669 | one strong count more, and one reference more that is no member's |
| Objects.Heap.WeaklyRef | object.c:671-675 | one weak count more |
| Objects.GainAllIs | object.c:1022-1093 | what a copy adds to each count, and that it touches nothing else |
| Objects.Heap.CopyValue | object.c:1022-1093 | every strong count grows by the scanned and hidden references of the value, every weak count by its weak ones, through arrays, tuples and variants |
| Objects.Heap.FreeValue | object.c:972-1020 | freeing gives up exactly the references that the value holds and keeps the heap invariant through all cascades |
| Objects.Heap.WeakRelease | object.c:609-620 | one weak count less; the storage is gone if and only if it was the last |
| Objects.Heap.Unref | object.c:699-724 | with references left, one count less, nothing else changed, and a candidate if not marked; without, the object is destroyed, cascades included |
| Objects.Heap.DropWeak | object.c:692-697 | one weak count less; the storage is gone if and only if it was the last |
| Objects.FreedIs | object.c:699-724 | after any cascade, survivors have their members and are candidates exactly if they were or have lost a reference unmarked; the dead have no members and no count |
| Objects.Heap.Destroy | object.c:622-632 | the dying object is emptied once and loses its implicit weak count; sealed-off objects lose nothing |
| Objects.Heap.Finalize | object.c:578-603 | all members are dropped, and what was given up is what was held |
| Objects.Heap.TakeMember | object.c:538-545 | the table is as it was without that entry, and what it held is the caller's |
| Objects.Heap.PutMember | object.c:758-770 | the table has one entry more at its end, with that name and value, and what it holds is no longer the caller's |
| Objects.Heap.Upgrade | object.c:677-690 | a weak reference is upgraded if and only if the object is alive, not destroyed and not condemned |
| Marking.MarkObject | object.c:1349-1402 | visiting an object marks exactly what it newly reaches, counts every scanned reference of what it marks, takes the touched off the candidate list, and terminates on cycles |
| Marking.MarkValue | object.c:1349-1388 | the same for a value with nested arrays, tuples and variants |
| Marking.NextRoot | object.c:1475-1486 | after each root the trial counts are the references held by marked objects, the marked set is what the roots reach, and who refers to a root is reached from it |
| Marking.RootsReachEachOther | object.c:1466-1486 | with a→c→a, b→c and the candidates in the order a, b, both become isolated roots although b reaches a |
| Collector.MarkRoots | object.c:1475-1486 | the candidate list is emptied and all of its objects are reached from the isolated roots, with trial counts and roots as NextRoot keeps them |
| Collector.MarkTriangle | object.c:1475-1486 | the same two rounds of the loop on such a heap |
| Scanning.ScanObject | object.c:1349-1445 | scanning condemns or saves; an object is descended at most twice; a saved object has trial count zero |
| Scanning.Verdict | object.c:1414-1492 | once all roots are scanned, a marked object is condemned if and only if no object with references from elsewhere reaches it, in whatever order the roots came |
| Collector.ScanRoots | object.c:1488-1492 | the loop over the isolated roots leaves a state in which that verdict holds |
| Collector.DropRevived | object.c:1497-1502 | exactly the roots that are not condemned leave the list |
| Reaping.PinPhase | object.c:1446-1455 | pinning an object by an extra reference keeps the account of the finalising pass |
| Reaping.PostSpares | object.c:1456-1461 | what a finalised object gives up never brings a pinned or finalised object to zero early |
| Reaping.PostPhase | object.c:1456-1461 | finalising in post-order keeps the account: who is pending, pinned or done, and every count |
| Reaping.PostAloof | object.c:1456-1461 | what is finalised leaves every set alone that holds no condemned object and that nobody else refers to |
| Reaping.ReapObject | object.c:1349-1388 | the finalising pass over one object, re-entrant through destruction, finalises condemned objects only, each once; a set of other objects that nobody else refers to loses no reference |
| Reaping.PostObject | object.c:1456-1461 | once everything it holds has been passed over, a pinned object is finalised and gives back its pin |
| Collector.RootsPending | object.c:1504-1512 | after a root's pass, every root that is still listed has not been reached by it |
| Collector.ReapRoots | object.c:1504-1512 | the loop ends, with every condemned object destroyed, survivors untouched, and the new candidates listed |
| Collector.Condemn | object.c:1463-1502 | the objects to be destroyed are those that a candidate reaches and that nothing held elsewhere reaches, and only they refer to them |
| Collector.CollectRound | object.c:1463-1514 | one round destroys the objects that Condemn finds, and no others where the collector sees all references; else whoever dies besides is reached from them by strong references; survivors keep their members, and counts stay exact |
| Collector.RoundExact | object.c:1463-1514 | without references hidden from the collector, the survivors of a round are all but the condemned |
| Collector.RoundLed | object.c:1463-1514 | in any heap, whoever dies in a round is condemned or reached from the condemned by strong references |
| Collector.SurvivorReached | object.c:1463-1514 | whoever survives a round and was reached by a candidate is reached by an outside reference |
| Collector.RoundTracked | object.c:1463-1514 | after a round all garbage is led to by a candidate again |
| Collector.RoundUndisturbed | object.c:1463-1514 | a set of objects that nobody else refers to and that holds no candidate keeps every count through a round and gains no candidate |
| Collector.UnledSurvives | object.c:1463-1514 | what no candidate leads to, garbage or not, survives a collection and is led to by no candidate afterwards |
| Collector.Collect | object.c:1463-1514 | the outer loop ends; whatever an outside reference leads to survives with its members, so does whatever no candidate leads to, and every garbage object that a candidate led to is gone |
| Collector.CollectExact | object.c:1463-1514 | where no member holds a reference hidden from the collector, an object survives if and only if an outside reference leads to it |
| Tracking.LossTracked | object.c:699-724 | giving up references, cascades included, keeps every garbage object reachable from a candidate |
| Tracking.StillReached | object.c:699-724 | a survivor that was reached is still reached by an outside reference or by a candidate |
| Tracking.ReachableSurvives | object.c:699-724 | nothing that an outside reference leads to is destroyed |
| Runtime.Start | object.c:484-486 | a thread starts with an empty heap: no address in use, no candidate and no reference |
| Runtime.NewObject | object.c:505-518 | one object more, without members, with one strong and one weak count; garbage stays tracked |
| Runtime.RefObject | object.c:657-669 | one count more; garbage stays tracked |
| Runtime.WeaklyRef | object.c:671-675 | one weak reference more keeps the invariant and the tracking of garbage |
| Runtime.Unref | object.c:699-724 | with references left, one count less and a candidate more; without, the object is destroyed and empty; every survivor has its members, and is a candidate if it has lost a reference; garbage stays tracked |
| Runtime.DropWeak | object.c:692-697 | one weak count less, and no storage after the last; garbage stays tracked |
| Runtime.Upgrade | object.c:677-690 | one strong count more if and only if the object is still intact; garbage stays tracked |
| Runtime.AddMemberClone | object.c:747-798 | a value of size zero is refused; on success the table ends with a member of that name and value, which holds references of its own; on `EEXIST` nothing has changed; without a name the copy's references stay with nobody |
| Runtime.RemoveMember | object.c:547-554 | the value of the member of that name is the caller's, and the other members stay in their order; `ENOENT` if and only if no member has that name; garbage stays tracked |
| Runtime.DeleteMember | object.c:556-564 | the member's references are given up, and the other members stay in their order; garbage stays tracked |
| Runtime.AddMemberMove | object.c:815-837 | on success the table ends with a member of that name and value, no count has changed and the caller's references are the member's, and tracking is kept under the condition of MoveTracked; on `EEXIST` they are given up; without a name they stay with nobody |
| Runtime.MoveTracked | object.c:815-837 | moving references into a member keeps all garbage tracked if and only if, before the call, the receiving object is reached from a candidate or from an object that keeps an outside or hidden reference without the ones given away |
| Runtime.SelfMoveLeaks | object.c:815-837 | in any heap, an object that is no candidate and whose only reference is moved into itself survives any number of collections, referred to by nobody else |
| Runtime.SelfMoveRun | object.c:815-837 | such a run from a new thread on: in the end the object is there, and nothing outside refers to anything |
| Runtime.PutTracked | object.c:758-798 | storing a copy keeps all garbage tracked |
| Runtime.TakeTracked | object.c:538-545 | taking a member out keeps all garbage tracked |
| HeapRuns.StoreAndRemove | object.c:538-554 | a value stored under a fresh name comes back by that name, a second one of the name is refused in between, and all members are as before |
| HeapRuns.CycleCollected | object.c:1463-1514 | two objects that hold each other and are given up stay until the collector runs, and then nothing is left |
| HeapRuns.HeldCycleStays | object.c:1463-1514 | with one reference from outside, both survive with their members |
| HeapRuns.NothingLeft | object.c:1463-1514 | without references from outside and hidden ones, a collection leaves no storage at all |
| HeapRuns.HeldByOne | object.c:1349-1388 | a list of values has a reference exactly if one of its values has it |
| HeapRuns.EdgeMeans | object.c:1349-1388 | the collector's edges are the references in the values of the members, and nothing else |
| HeapRuns.CollectsGarbage | object.c:1463-1514 | with all garbage tracked and nothing hidden, exactly what an outside reference leads to is left |
| Matching.Matcher.constructor | plugins/misc/misc.cc:25-37 | there is a slot for every right node up to the largest, and nothing is matched |
| Matching.Matcher.Dfs | plugins/misc/misc.cc:39-52 | the search ends in the state that Search gives |
| Matching.SearchKeeps | plugins/misc/misc.cc:39-52 | a successful search matches one more left node and unmatches none; a failed one changes nothing and has seen everything its nodes lead to; matches are found before any edge beyond `visited`, and an access beyond it needs such an edge |
| Matching.TakeVacated | plugins/misc/misc.cc:45-48 | taking over the slot that a successful search vacated keeps both sides of the matching in step |
| Matching.Fail | plugins/misc/misc.cc:39-52 | what a failed search has seen extends the certificate: left nodes that lead only to right nodes matched among them |
| Matching.Maximum | plugins/misc/misc.cc:24-58 | no matching of the graph is larger than one with such a certificate |
| Matching.BipartiteMatch | plugins/misc/misc.cc:24-58 | the result is a matching by given edges, no matching is larger; an exception if and only if an index is negative; else the outcome is that of the searches in the order of rows and edges; out of bounds only if an index reaches the number of left nodes, and always if the edges before the first such index of each row have no matching that covers the rows with one |
| Matching.FirstBeyond | plugins/misc/misc.cc:40-44 | so the search goes out of bounds when a row begins with an index beyond the number of left nodes |
| Matching.OutOfBoundsReached | plugins/misc/misc.cc:24-58 | the graph with one left node and the edge 0→1 ends out of bounds although it has a matching |
| Matching.OrderMatters | plugins/misc/misc.cc:24-58 | two graphs that differ in the order of one row have the same edges within bounds and a matching that covers the row with an edge beyond |
| Matching.TakenFirst | plugins/misc/misc.cc:39-52 | one of them ends out of bounds |
| Matching.FreeFirst | plugins/misc/misc.cc:39-52 | the other ends with a matching of both rows |
| Matching.OrderRuns | plugins/misc/misc.cc:24-58 | so they do when they are run |
| Constraints.Read | plugins/misc/misc.cc:76-99 | the system is accepted if and only if rows are even, indices in range and no loop negative; the edge count wraps as an unsigned int |
| Constraints.WellFormedIs | plugins/misc/misc.cc:82-98 | what is accepted, read off the numbers in the rows |
| Constraints.SatisfiesIs | plugins/misc/misc.cc:66-71 | what a solution is, read off them |
| Constraints.EdgesOne | plugins/misc/misc.cc:79-86 | every row adds half its numbers to the edge count |
| Constraints.RelaxRow | plugins/misc/misc.cc:106-119 | relaxing one row keeps every value the length of a walk, and rows outside the queue satisfied |
| Constraints.Relax | plugins/misc/misc.cc:101-120 | the result satisfies everything, or for every number of whole passes the budget pays for, no walk of so many hops undercuts it |
| Constraints.Shorten | plugins/misc/misc.cc:101-120 | in a satisfiable system loops can be taken out of a walk without making it longer |
| Constraints.SatisfiableShallow | plugins/misc/misc.cc:101-120 | a satisfiable system of n variables is settled by walks of at most n - 1 hops |
| Constraints.Exhausted | plugins/misc/misc.cc:101-120 | a budget spent between rows has covered as many hops as it pays whole passes for |
| Constraints.MidRow | plugins/misc/misc.cc:107-119 | the same when the budget ends inside a row |
| Constraints.RealisedGreatest | plugins/misc/misc.cc:101-130 | a result that satisfies everything is pointwise the greatest of all solutions without a positive value |
| Constraints.LeavesWide | plugins/misc/misc.cc:112-123 | a sum leaves int64 only if the largest bound times the budget and one does |
| Constraints.NoOverflow | plugins/misc/misc.cc:112-123 | so the solver never overflows for smaller bounds |
| Constraints.Confirm | plugins/misc/misc.cc:121-129 | the final loop accepts if and only if every constraint holds |
| Constraints.DifferenceConstraints | plugins/misc/misc.cc:74-131 | an exception for an ill-formed system exactly; a returned assignment is in int64, has no positive value, satisfies every constraint and is the greatest that does; a rejection means that the walks the budget pays for do not settle the system; the sums leave int64 only if a walk that the budget pays for, with one hop more, does |
| Constraints.SolvedIffSatisfiable | plugins/misc/misc.cc:101-130 | while the budget fits in an unsigned int, an assignment is returned if and only if the system is satisfiable |
| Constraints.SolvedIffZerosDo | plugins/misc/misc.cc:101-130 | with a budget of zero, an assignment is returned if and only if zeros satisfy the system |
| Constraints.WrappedBudget | plugins/misc/misc.cc:101-130 | a satisfiable chain of 65537 variables is rejected because the budget wraps around to zero |
| Promises.MeaningGrows | event.c:550-618 | the meaning of a promise, once there, does not depend on how deep it is looked for |
| Promises.SettledMeans | event.c:437-466 | a promise settled by the rules is settled to its meaning: apply the handler, pass through, adopt, reject |
| Outcomes.AfterResolved | event.c:550-618 | what `then` makes of a resolved promise: its value without a handler, what the handler returns, a rejection with what it throws, what the promise it returns has settled to, and nothing if the call fails |
| Outcomes.AfterRejected | event.c:550-618 | the same of a rejected promise and the other handler |
| Outcomes.ParentFirst | event.c:437-466 | a promise made by `then` or `catch` settles after the one it was made of |
| Outcomes.ResolvedSettles | event.c:437-466 | with nothing pending it is settled, unless its handler failed or returned a promise that is not settled or is the one it was called for |
| Outcomes.RejectedSettles | event.c:437-466 | the same after a rejection |
| Outcomes.ForcedOutcome | event.c:773-789 | what the program settles is settled to that, and nothing else settles a promise that was not made of others |
| Outcomes.JoinOutcome | event.c:684-742 | the results of a join are the values of its inputs, in their order |
| Outcomes.AnyOutcome | event.c:744-771 | an any-promise has the value of an input that resolved before it |
| Scheduling.SettleCore | event.c:773-789 | settling keeps the invariant of the scheduler, and no settlement ever changes |
| Scheduling.FollowCore | event.c:604-612 | a closure whose handler returned a promise waits there, once, and nowhere else |
| Scheduling.FinishCore | event.c:403-435 | a closure that has been called is gone from every handlers array |
| Scheduling.EnlistCore | event.c:528-548 | a closure added to a settled promise gets that promise scheduled, unless it is being dispatched |
| Scheduling.PopCore | event.c:798-809 | the stack keys stay 0 to count - 1, no promise is on it twice |
| Gathering.SlotGood | event.c:684-709 | `left` is `total` minus what is stored, result i is the value of input i, and the join settles when nothing is left |
| Gathering.FirstGood | event.c:744-746 | the closure of an input that is called first settles the any-promise to that input's value, and no later one changes it |
| Gathering.LastStored | event.c:693-708 | when nothing is left, every key of the storage is there |
| Building.ChainedGood | event.c:620-648 | a promise made by then or catch keeps the invariant, whether its parent is settled or not |
| Building.ForcedGood | event.c:773-789 | so does a promise settled by the program, early or late, source or derived |
| Building.ChainedIs | event.c:620-648 | `then` appends one closure with its two handlers to those of one promise, and changes no other |
| Building.GroupMadeIs | event.c:714-771 | join and any leave a closure waiting for each input, with the handler that gathers it and none for rejections; a join has its storage, or without inputs its empty result |
| Drained.Sound | event.c:437-466 | at any moment, whatever is settled is settled to its meaning |
| Drained.CompleteIffNoSelfReturn | event.c:437-466 | with nothing pending, every promise with a meaning is settled if and only if no handler has returned the promise it was called for |
| Drained.OrderIndependent | event.c:791-814 | two runs that ask for the same, and whose any-promises take the same inputs, settle the same, whatever the stack order and the times of attachment |
| Drained.FollowedScheduled | event.c:485-548 | a settled promise that a handler returns is scheduled if and only if it is not the one being dispatched |
| Drained.JoinSettles | event.c:714-742 | with nothing pending, a join whose inputs have all resolved is settled |
| Drained.AnySettles | event.c:754-771 | with nothing pending, an any-promise with a resolved input is settled |
| Drained.ResolvedInputWaits | event.c:744-771 | as long as an any-promise is not settled, every resolved input of it is pending or being dispatched |
| Drained.EarliestIffOthersLater | event.c:744-771 | the input taken is the first of the inputs to have resolved if and only if no input that resolved before it is still pending |
| Calling.OnlyResolvedInputWins | event.c:744-771 | of inputs that the program settles itself, the only one to have resolved when the idle callback runs is the one taken |
| Calling.CallAllTakes | event.c:744-746 | a dispatch settles an any-promise only if its promise is a resolved input, and then that input is taken |
| Calling.HighestInputWins | event.c:754-814 | a drain takes the resolved input that is highest on the stack when it begins, if the program settles all inputs itself |
| Calling.FirstTakenIffHighest | event.c:754-814 | so the any-promise gets the value of that input, which is the first to have resolved when the drain is over if and only if it was when the drain began |
| Calling.CallResultDone | event.c:550-618 | whatever a called closure does, the invariant holds after it, nothing settled has changed, and there is no more work than before |
| Calling.CalledInOrder | event.c:403-435 | one more waiting closure is called after the others, if it has a user handler for the outcome |
| Calling.CallAllDone | event.c:403-435 | the same for all closures of an array, whose user handlers are called in the order of registration, each once |
| Calling.DispatchedGood | event.c:437-466 | one dispatch calls exactly the handlers that waited, keeps the invariant, and leaves less work than there was |
| Calling.RoundsGood | event.c:791-814 | any number of dispatches keeps the invariant and every settlement |
| EventLoop.SelfReturnStuck | event.c:437-466 | the smallest network in which a promise with a meaning stays unsettled when the whole drain is over |
| EventLoop.LaterInputWins | event.c:754-771 | a run in which input 0 resolves before input 1 and the any-promise takes the value of input 1 |
| EventLoop.ThrowRejects | event.c:595-616 | a run in which a handler throws: its promise is rejected with that error, a `catch` of it is called with the error, and the handlers of one promise are called in the order of registration |
| EventLoop.EventModule.StartDispatch | event.c:485-521 | pushed on top once, and the idle watcher is active |
| EventLoop.EventModule.AddHandler | event.c:528-548 | the closure is last in the array, and a settled promise is scheduled |
| EventLoop.EventModule.Resolve | event.c:773-780 | the first settlement counts, and schedules the promise |
| EventLoop.EventModule.Reject | event.c:782-789 | the first settlement counts, and schedules the promise |
| EventLoop.EventModule.JoinHandler | event.c:684-709 | the value is stored, and the last one resolves the join with all values in order |
| EventLoop.EventModule.CallUser | event.c:586-616 | the promise resolves with what the handler returns, rejects with what it throws, waits for the promise it returns, and does nothing if the call fails |
| EventLoop.EventModule.PassOn | event.c:566-584 | without a handler the settlement is passed on |
| EventLoop.EventModule.CallClosure | event.c:550-618 | the state after it is that of CallResult: what the handler's outcome, a stored value or a passed on settlement makes of it |
| EventLoop.EventModule.DispatchHandlers | event.c:403-435 | the state after it is that of calling the handlers of the array one after the other in the order of registration |
| EventLoop.EventModule.Dispatch | event.c:437-466 | the state after it is that of Dispatched: handlers taken, all called, `is_pending` given back |
| EventLoop.EventModule.OnIdle | event.c:791-814 | the drain ends, with nothing pending and no settlement changed, in the state that dispatching the top of the stack again and again leads to |
| EventLoop.EventModule.Then | event.c:620-681 | the new promise has the given handlers and no others and waits last in line, and pending work is never left without an active idle watcher |
| EventLoop.EventModule.JoinPromises | event.c:714-742 | elements that are not promises are an error that changes nothing; else the join has one closure waiting for each input, in their order, and its storage, before anything can run, and without inputs it is resolved |
| EventLoop.EventModule.AnyPromise | event.c:754-771 | elements that are not promises, and an empty array of another element type, are an error that changes nothing; else the any-promise has one closure waiting for each input, in their order |
| Links.PushFront | uthash.h:790-799 | a list with a new head is linked both ways |
| Links.Remove | uthash.h:812-825 | bridging over an item leaves a list of the others, linked both ways |
| Links.FileFront | uthash.h:790-799 | an item put at the front of its chain keeps all chains disjoint, counted and filed by hash value |
| Links.Unfile | uthash.h:812-825 | taking an item out of its chain leaves the other chains alone |
| HashTables.MaskIsRemainder | uthash.h:441-444 | masking by a power of two less one is the remainder |
| HashTables.ToBktIs | uthash.h:441-444 | so the bucket of a hash value is its remainder by the number of buckets |
| HashTables.IdealIsCeil | uthash.h:869-871 | the shift and the mask compute items divided by buckets, rounded up |
| HashTables.Counted | uthash.h:879-884 | the number of non-ideal items is the total excess over all chains, one item at a time |
| HashTables.WidenedIs | uthash.h:879-884 | a chain longer than ideal has as `expand_mult` its length divided by the ideal length, rounded up, but no more than its number of non-ideal items; others have 0 |
| HashTables.ExcessIs | uthash.h:879-884 | the total excess is the sum of what each chain has beyond the ideal length |
| HashTables.EntriesMore | uthash.h:407-432 | a fresh key is appended to the ordered contents |
| HashTables.EntriesLess | uthash.h:461-488 | a deleted item is the only one missing from the ordered contents |
| HashTables.HashTable.ListIs | uthash.h:407-432 | the list from the head on runs through the items and back |
| HashTables.HashTable.ContentsIs | uthash.h:407-432 | the contents are the items of that list with their keys |
| HashTables.HashTable.FiledIs | uthash.h:790-809 | every item is in the chain of its key's hash value, and every bucket counts its chain |
| HashTables.HashTable.MakeTable | uthash.h:223-247 | 32 empty buckets |
| HashTables.HashTable.Find | uthash.h:164-184 | an item is found if and only if its key is in the table, by chain or not at all |
| HashTables.HashTable.MoveItem | uthash.h:876-891 | one item moves to the new chain of its hash value |
| HashTables.HashTable.ExpandBuckets | uthash.h:856-906 | doubling keeps list and contents; the ideal length is rounded up, non-ideal items are the total excess, each chain's `expand_mult` is exact, and a second poor expansion in a row is the last |
| HashTables.HashTable.AddToBkt | uthash.h:790-809 | the buckets are doubled exactly when the chain has reached ten times its own `expand_mult` and one |
| HashTables.HashTable.Add | uthash.h:407-432 | the contents gain the new entry at the end |
| HashTables.HashTable.Delete | uthash.h:461-488 | the contents lose exactly the given entry; without entries there is no table |
| Grammar.PrintUnique | plugins/dbus/signature.c:294-331 | no signature's text begins another's: a text is read in one way only |
| Grammar.TreeTexts | plugins/dbus/signature.c:262-331 | each node's text is exactly its own, and the children's texts together give it back |
| Grammar.ParseOne | plugins/dbus/signature.c:294-331 | a type is parsed if and only if the text begins with one, into that type's tree; else it is an error if nothing makes a type of the text, and undefined if something behind it would |
| Grammar.ParseSequence | plugins/dbus/signature.c:264-292 | the types up to the end character are parsed if and only if there is nothing else before it; an error and an undefined outcome are told apart in the same way |
| Grammar.Parse | plugins/dbus/signature.c:333-346 | what is parsed is a sequence of types up to the end of the text or up to a NUL, into the trees of just these types; a text that is types up to its end is parsed; one that ends too early is undefined and no error |
| Grammar.RoundTrip | plugins/dbus/signature.c:333-346 | parsing the printed form of a signature can only give that signature back |
| Codes.BasicCodes | plugins/dbus/signature.c:296-297 | the parser takes as basic exactly the thirteen codes of the D-Bus Specification |
| Codes.ParseRun | plugins/dbus/signature.c:333-346 | an array of structs, parsed into all its nodes |
| Signatures.VerifiedExact | plugins/dbus/signature.c:120-192 | the signature check consumes exactly a type's text, whatever follows, if the value fits the type, and never returns a rest otherwise |
| Signatures.Verify | plugins/dbus/signature.c:120-192 | the signature check with its loops |
| Signatures.Length | plugins/dbus/signature.c:50-82 | the length computed in advance is that of the type with variants looked through, or -1 where something without a type is in no array; it is enough for the type's own text, and is its length if and only if all variants are snug |
| Signatures.UniformMakes | plugins/dbus/signature.c:194-246 | what is generated passes the signature check if and only if no string literal is in it but in variants |
| Signatures.LiteralsRefused | plugins/dbus/signature.c:100-102 | an array of a string literal has no signature, though the literal has one |
| Signatures.WidthsMixed | plugins/dbus/signature.c:90-97 | an array of a tuple of an int64 and a tuple of an int32 has one |
| Signatures.GapBeforeNul | plugins/dbus/signature.c:50-82 | the length computed for a variant of an empty tuple is more than its text |
| Signatures.ArrayVerdict | plugins/dbus/signature.c:201-218 | the check of an array just written succeeds if and only if every element fits the type of the first, whatever the memory behind it holds |
| Signatures.ToBuffer | plugins/dbus/signature.c:194-246 | the generator writes the type's text and nothing beyond its length, and succeeds if and only if the elements of every array outside of variants fit the first one's type; a value without a type fails |
| Signatures.TypeSignature | plugins/dbus/signature.c:248-260 | the generated signature is the tree of the value's type, for a simple value its one character with the NUL behind it; the NUL stands right behind the text if and only if all variants are snug; unless the check aborts, it is written into released memory if and only if no signature can be made of a value whose length was computed |
| Signatures.SimpleTexts | plugins/dbus/signature.c:9-41 | the character of each simple type |
| Codes.CodeMeans | plugins/dbus/signature.c:9-41 | by the specification, that character means a number of the type's own signedness and width, a double, a bool or a string |
| Codes.CompatibleMeans | plugins/dbus/signature.c:85-113 | an integer may stand for any integer of at least 16 bits, a string for a string or an object path; what else passes, and where the check aborts |
| Codes.PrintIs | plugins/dbus/signature.c:194-246 | the text of an array, of a struct and of a variant |
| Codes.PrintAllIs | plugins/dbus/signature.c:194-246 | and of a sequence of types |
| Codes.SignatureRun | plugins/dbus/signature.c:248-260 | a tuple of an integer, an array and a variant, from value to text |
| Codes.CheckRun | plugins/dbus/signature.c:120-192 | the check where types are converted or do not fit |
| Codes.AbortRun | plugins/dbus/signature.c:100-192 | the check where it aborts and where it only fails |
| Signatures.LateWrite | plugins/dbus/signature.c:248-260 | for an array of one string literal, it is |
| Signatures.Agree | plugins/dbus/signature.c:120-331 | the check consumes exactly a generated signature, with any text behind it, if and only if the value is of its own type; the parser reads the same tree off that text |
| StringBufs.StringBuf.Push | string_buf.c:30-45 | the text grows by the piece, and the tail addresses the last link |
| StringBufs.StringBuf.Dump | string_buf.c:63-88 | the text is returned whole, and the buffer is empty |
| StringBufs.ChainMore | string_buf.c:38-45 | linking through the tail pointer extends the list by one node |
| OutputLines.SplitCut | spawn.c:51-81 | lines and unfinished line do not depend on where the text is cut |
| OutputLines.SplitWhole | spawn.c:51-81 | lines and remainder put together are the text, and hold no newline |
| OutputLines.SplitUnique | spawn.c:51-81 | the split is the only way to divide a text into lines and an unfinished line |
| OutputLines.SplitLine | spawn.c:59-70 | the next line emitted is what was left over with the new piece behind it |
| OutputLines.Child.HandleLine | spawn.c:59-79 | one line is emitted, and the buffer is gone exactly if the listeners stopped on it |
| OutputLines.Child.HandleRead | spawn.c:54-81 | after any read, the lines emitted and the buffered text are those of the whole stream; the listeners stopped on no line but the last, and the buffer is gone exactly if they did |
| OutputLines.Child.HandleOutput | spawn.c:51-87 | so they are after any series of reads; at the end of the output all lines were emitted; no line is emitted after one that the listeners stopped on |
| OutputLines.Child.HandleExit | spawn.c:113-123 | when the child exits, the remainder is emitted as one more line, even if it is empty, unless the output has ended, when it is dropped; no line follows one that the listeners stopped on |

## Left out

- Reference counts wrapping around at 64 bits, and the order within the candidate lists: the lists are sets, so every order is covered.
- Objects.Heap.Finalize: does not call the object's destructor, which is arbitrary user code, as getters, setters and deleters are; a destructor does nothing in the model.
- `EMPTY_OBJECT` values: counted by copy and free and not scanned, as in the code; the collector's exactness is stated for heaps without them, its safety for all.
- Object tracking and stack traces, anonymous and named roots: roots are outside references.
- Constraints.DifferenceConstraints: for a budget that wraps around to something other than zero, the walks that the budget pays for decide in one direction each, because the exact boundary is the number of relaxations the run itself needs.
- Sums outside int64 in the solver: the model ends with `Overflow`, which can happen only for bounds too large for the budget.
- EventLoop.EventModule.CallClosure: the program's handler returns a value or a promise, throws, or fails, and its reply depends on the value only; it does not call methods of promises while it runs.
- The event module going away, the anonymous root that keeps it alive, and garbage collection of promises.
- Log messages for unhandled rejections and failing handlers.
- Hash functions, bloom filters, sorting, selection and in-order insertion of the hash table; more than 2^31 buckets; allocation failure.
- Signatures.ToBuffer: not for empty arrays, whose first element is read before the array, and not for arrays with nil, pointers or objects in them, whose computed length is too short for what is written and whose fate depends on memory that nobody has written.
- Type codes of libdbus: taken from the D-Bus Specification; libdbus is not part of this model.
- NUL characters in a child's output.
- Lua, X11, udev and the other plugins, process spawning, command line parsing.

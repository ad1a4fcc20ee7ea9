# Round-robin scheduler: task queues and configuration-line tokeniser

This project models the part of the round-robin process scheduler that the
repository actually implements:

- the task queue of `RoundRobinQueue/queue.c`: a singly linked FIFO with `head`
  and `tail` pointers whose nodes hold `struct process*`, with `initQueue`,
  `makeNode`, `enqueue`, `dequeue`, `isEmpty` and `headToTail` (rotate the head
  process to the back, the round-robin step);
- the earlier queue of `queue.c`: the same list, but nodes hold a copy of the
  process record, and there is no `dequeue` or `isEmpty`;
- the configuration-line tokeniser of `sched.c`: `isNumeric`, and `initStruct`,
  which splits a line `<priority> <path> <args>` with `strtok` and fills in
  the process record, failing with -1 at the first step that goes wrong.

Files:

- `queue_spec.dfy` (module `QueueSpec`): the abstract meaning of a rotation,
  `Rotated(s) = s[1..] + [s[0]]`, and lemmas about repeated rotation.
- `round_robin_queue.dfy` (module `RoundRobinQueue`): classes `Node<P>` and
  `Queue<P>`. `P` stands for the process pointer, which the queue stores and
  hands back without looking inside it. The queue has ghost fields `Nodes` (the
  node spine), `Contents` (the processes in order) and `Repr` (the objects it
  owns). `Valid()` ties the `head` and `tail` pointers and the `next` links to
  these fields. Every method is proved against `Contents`. Two client methods
  build a queue and drain it: one proves FIFO order, the other proves the result
  of k rotations.
- `queue.dfy` (module `Queue`): the same model for `queue.c`, with
  `Sched.Process` records stored by value. The caller allocates the queue object
  and `InitQueue` gives it its links, as in the C code.
- `sched.dfy` (module `Sched`): `IsNumeric` is a loop proved equal to the
  predicate `AllDigits`. `Strtok` is a function that models one `strtok` call,
  and its contract characterises the result completely. `DecimalValue` models
  `atoi` on a digit string. `InitStruct` is a method with an early return at
  each failing step. The executable check `isExec` is a parameter of type
  `string -> bool`.

The code departs from the queue's intended invariant in one place, and the model
follows the code. The intended invariant is that an empty queue has
`head = tail = null`. But `dequeue` never resets `tail`, so after the last node
is removed, `tail` still points to the node that was returned. `enqueue` only
looks at `head`, so this does no harm. `Valid()` therefore leaves `tail` free when the queue is empty, and `Dequeue`
says that `tail` is unchanged.

A second quirk of the source is proved as a lemma. The second `strtok` call
splits only on spaces. When the path is the last field on a line, the path token
keeps the line's newline and no arguments remain, so the line is rejected
(`Sched.LineWithoutArgsRejected`).

## Model

| member | source | states |
|---|---|---|
| `RoundRobinQueue.Queue.InitQueue` | RoundRobinQueue/queue.c:8-17 | when the mutex initialises, status 0 and a valid, fresh, empty queue with null head and tail; otherwise status -1 |
| `RoundRobinQueue.Node.MakeNode` | RoundRobinQueue/queue.c:24-29 | the new node holds the given process pointer and its next link is null |
| `RoundRobinQueue.Queue.Enqueue` | RoundRobinQueue/queue.c:46-56 | contents go from s to s + [p]; the tail is the fresh node holding p with a null next, also when the queue was empty; a non-empty queue keeps its head |
| `RoundRobinQueue.Queue.Dequeue` | RoundRobinQueue/queue.c:63-70 | on an empty queue returns null and changes nothing; otherwise returns the old head node, whose process is s[0] and whose next link is the new head, and contents become s[1..]; tail is never changed |
| `RoundRobinQueue.Queue.IsEmpty` | RoundRobinQueue/queue.c:77-79 | true exactly when head is null, which is exactly when the contents are empty |
| `RoundRobinQueue.Queue.HeadToTail` | RoundRobinQueue/queue.c:86-94 | on an empty queue returns -1 and changes nothing; otherwise returns 0 and contents become Rotated(s); with two or more processes the old second node becomes the head |
| `RoundRobinQueue.DrainInArrivalOrder` | RoundRobinQueue/queue.c:46-70 | processes enqueued into a new queue come out of repeated dequeues in arrival order |
| `RoundRobinQueue.DrainAfterRotations` | RoundRobinQueue/queue.c:46-94 | after k headToTail calls on a queue built from procs, dequeuing everything yields procs rotated k times |
| `QueueSpec.Rotated` | RoundRobinQueue/queue.c:86-94 | a rotation keeps the length and the multiset of processes, moves the old head to the last place, and shifts every other process one place forward |
| `QueueSpec.RotatedSingleton` | RoundRobinQueue/queue.c:86-94 | rotating a one-element queue leaves it unchanged |
| `QueueSpec.RotatedTimes` | RoundRobinQueue/queue.c:86-94 | any number of rotations keeps the length and the multiset of processes |
| `QueueSpec.RotatedTimesSplits` | RoundRobinQueue/queue.c:86-94 | k <= n rotations of an n-element queue give s[k..] + s[..k] |
| `QueueSpec.FullRoundRestores` | RoundRobinQueue/queue.c:86-94 | after one rotation per queued process, every process is back in its original place |
| `Queue.Queue.InitQueue` | queue.c:3-11 | head and tail become null, the queue is valid and empty, and the status is 0 |
| `Queue.Node.MakeNode` | queue.c:18-23 | the new node holds a copy of the given record and its next link is null |
| `Queue.Queue.Enqueue` | queue.c:29-39 | contents go from s to s + [p]; the tail is the fresh node holding p with a null next, also when the queue was empty |
| `Queue.Queue.HeadToTail` | queue.c:41-49 | on an empty queue returns -1 and changes nothing; otherwise returns 0 and contents become Rotated(s), length unchanged |
| `Sched.IsNumeric` | sched.c:104-111 | true exactly when every character is in '0'..'9', so the empty string is numeric |
| `Sched.Strtok` | sched.c:70-81 | NULL exactly when the text is all delimiters; otherwise the token is the first maximal run of non-delimiters after the leading delimiters, and the rest starts after the single delimiter that ends it |
| `Sched.TokenThenDelim` | sched.c:70-81 | a token followed by a delimiter is returned at once, and the scan resumes after that delimiter |
| `Sched.TokenAtEnd` | sched.c:70-81 | a token that reaches the end of the text is returned at once, and nothing remains |
| `Sched.DecimalValue` | sched.c:73 | atoi on a digit string gives its base-10 value, which is below 10^k for k digits |
| `Sched.Decimal` | sched.c:72-73 | the written numeral of a priority is a non-empty digit string, so isNumeric accepts it |
| `Sched.DecimalRoundTrip` | sched.c:72-73 | atoi of the written numeral of n is n |
| `Sched.NineDigitsFitInInt` | sched.c:73 | a priority token of at most nine digits fits in a 32-bit int |
| `Sched.InitStruct` | sched.c:64-84 | returns 0 exactly when there is a numeric first token, a second token that passes isExec, and a third token up to the newline; otherwise -1. Priority is set as soon as the first token is numeric, path as soon as the second passes isExec, and args only on success; every field not yet reached keeps its old value |
| `Sched.ConfigLineTokens` | sched.c:64-84 | the line "<n> <path> <args>\n" splits into the numeral of n, the path and the args, and the priority reads back as n |
| `Sched.ConfigLineAccepted` | sched.c:64-84 | such a well-formed line is accepted exactly when its path passes the executable check |
| `Sched.LineWithoutArgsRejected` | sched.c:76-81 | the line "<n> <path>\n" is always rejected, because its path token keeps the newline and nothing is left for the args |

## Left out

- `main` and `parseFile` (sched.c:9-56): command-line handling, file reading with `getline`, console output and `exit`. They are I/O only.
- `isExec` (sched.c:91-97): it calls the operating system's `stat`. The model passes it to `InitStruct` as a predicate on the path.
- `printQueue` in both queue files: console output only.
- `freeNode` and memory management: nothing is freed in the model. `HeadToTail` models the leak: the old head node is unlinked, removed from `Repr` and never freed, and `Enqueue` allocates a new node.
- The queue mutex: it is initialised but never locked, so both models are single-threaded and have no lock field. For `RoundRobinQueue/queue.c`, the result of `pthread_mutex_init` is the parameter `lockStatus`. The `exit(1)` that `queue.c` takes when the mutex fails to initialise is process termination and is not modelled.
- InitStruct: the priority is the exact value of the digit token. A token above 2147483647 makes C's `atoi` undefined, and this is not modelled. `NineDigitsFitInInt` marks the range that is safe.
- InitStruct: strings are modelled as values, so the model does not capture aliasing or update in place. In the C code, `strtok` overwrites each delimiter of the caller's `line` buffer with NUL (sched.c:70, 76, 81). `proc->path` and `proc->args` are then pointers into that buffer (sched.c:79, 82), and `parseFile` reuses the buffer on its next `getline` (sched.c:40). The model leaves `line` unchanged and returns `path` and `args` as independent strings.
- MakeNode (`Queue.Node.MakeNode`, queue.c:18-23): copying a `struct process` by value copies its `char*` fields. The node therefore shares its path and argument strings with the caller's record, and the model does not capture this sharing.
- The third `strtok` call (sched.c:81) passes the character `'\n'` where a delimiter string is expected, which is undefined behaviour. The model uses the intended delimiter string `"\n"`.
- Strings are the characters before their terminating NUL. A line holding an embedded NUL byte would make `strtok` stop early, and this is not modelled.
- `sched.h` names the arguments field `arguments`, while `sched.c` writes `args`. The model follows `sched.c`. The fields `pid` and `completed` are carried along unchanged.
- `RoundRobinQueue/Tests/tests.c` registers no tests. `RoundRobinQueue/printchars.c` is a worker program that prints and sleeps. Neither is modelled.
- The repository has no code for process spawn, suspend, resume or reap, for the dispatch loop, or for timing and metrics, so none of that is modelled.

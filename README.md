# Call-center dispatcher, modelled in Dafny

This project models the core of a small call-center dispatcher written in Java.
A `Rol` maps a role name, ignoring case, to an attention priority and a canonical name.
An `Empleado` is a worker with an id and a role. Workers are ordered for a priority queue by `compareTo`.
The `Dispatcher` keeps five things:
- a priority queue of available workers;
- a FIFO list of pending call ids;
- a bounded queue (capacity 10) of calls in flight;
- an id counter;
- a log of `(worker, call, tipo)` entries, where tipo 0 means assigned and tipo 1 means finished.

A one-shot future is completed when everything has drained.

The project has four files:
- `roles.dfy` (module `Roles`): the role constructor as a pure function, with `equalsIgnoreCase` written out per character and proved equal to an independent upper-casing reference.
- `workers.dfy` (module `Workers`): the worker value, `compareTo`, and the queue head of a pool of workers.
- `dispatch_state.dfy` (module `DispatchState`): the dispatcher state as a value and each atomic step as a function. An invariant in five parts is proved to be kept by every step, and the properties the code and its tests rely on are proved from it.
- `dispatcher.dfy` (module `Dispatching`): the `Dispatcher` class, with the Java fields and one method per atomic step.

Most methods of the class are proved to move `Snapshot()` exactly as a step function:
- the constructor, `AgregarEmpleado`, `ProcesarLlamada`, `EmitirLlamada`, `DispatchCall`, `LiberarLlamada`, `CompletarFuturo` and `OnLlamadaDespachada` each match a named step;
- `PollEmpleado`, `PollLlamada`, `Atender` and `Perder` are stated as record updates of the old snapshot.

`Dispatch` has no step function of its own. It states the counter, the log, the lost calls and the flag after its loop.

Five members keep `Valid()`, which is that invariant: the constructor, `AgregarEmpleado`, `DispatchCall`, `Dispatch` and `OnLlamadaDespachada`. The smaller helper methods neither require nor ensure it; their callers keep it through the lemmas of `DispatchState`.

Asynchronous handling of a call is abstracted as follows. `Empleado.atenderLlamada` plus its `thenAccept` callback is a pending handling, kept in the map `atendiendo` from call id to worker. The environment may run `OnLlamadaDespachada` for any call in that map, and the callback gets back the same worker that started the handling.

Three ghost values do the bookkeeping:
- `plantilla`: every worker ever added;
- `lostCalls`: the calls dropped when adding to the full in-flight queue throws;
- `lostWorkers`: the workers dropped with those calls.

Three behaviours of the code are easy to misread, and the model follows the code in each:
- **The queue hands out the largest priority number first.** `compareTo` compares the other worker's priority against this one's (src/main/java/Empleado.java:49). So the head of the available queue has the largest `prioridadAtencion`: operators (3) go before supervisors (2), and supervisors before directors (1), although priority 1 belongs to DIRECTOR. `QueueOrderOfRoles` and `QueueHeadHasLargestPriority` state this.
- **The in-flight queue throws when full.** `ArrayBlockingQueue.add` throws an exception when 10 calls are in flight (src/main/java/Dispatcher.java:51,76); it does not block. By then the worker and the call have already been polled, so both end up on no queue. `dispatch` stops at that point, and `DispatchCall` and `Dispatch` return `ok == false`. `CompletarInv` proves that this can only happen from `dispatchCall`: a completion frees a slot before it assigns.
- **`dispatch(0)` never completes the future.** The future is completed only inside the completion callback (src/main/java/Dispatcher.java:99-101). So `dispatch(0)`, or any batch that ends with nothing in flight, leaves it incomplete, and the `future.get()` that follows waits forever. `Dispatch` proves that with `num <= 0` the state is unchanged, the flag included.

## Model

| member | source | states |
|---|---|---|
| Roles.NewRol | src/main/java/Rol.java:28-41 | the built role is one of the three well-formed roles: priority 1 with DIRECTOR, 2 with SUPERVISOR, 3 with OPERADOR |
| Roles.NewRolMatchesReference | src/main/java/Rol.java:28-41 | on every string the constructor agrees with the reference mapping by upper-casing: any casing of DIRECTOR gives 1, of SUPERVISOR gives 2, and anything else, "" included, gives 3/OPERADOR |
| Roles.CharEqualsIgnoreCase | src/main/java/Rol.java:30-34 | the per-character test of equalsIgnoreCase accepts equal characters and implies equal upper cases |
| Roles.EqualsIgnoreCase | src/main/java/Rol.java:30-34 | equalsIgnoreCase on non-null strings accepts equal strings and implies equal lengths |
| Roles.CharEqualsIgnoreCaseIsUpperEquality | src/main/java/Rol.java:30 | the per-character test of equalsIgnoreCase holds exactly when both upper cases are equal |
| Roles.EqualsIgnoreCaseIsUpperEquality | src/main/java/Rol.java:30-34 | two strings are equal ignoring case if and only if their upper cases are equal |
| Roles.UpperCaseOfCanonicalNames | src/main/java/Rol.java:11-13 | the three canonical names are already upper case |
| Roles.NewRolIdempotent | src/main/java/Rol.java:30-41 | building a role from a role's canonical name gives the same priority and name back |
| Roles.PriorityDeterminesName | src/main/java/Rol.java:11-17 | among well-formed roles, equal priorities go with equal names and the reverse |
| Workers.NewEmpleado | src/main/java/Empleado.java:23-26 | the worker keeps the given id, and its role is well formed and equal to the reference mapping of the role name |
| Workers.IntegerCompare | src/main/java/Empleado.java:49 | the result is -1, 0 or 1, negative exactly when x < y and zero exactly when x == y |
| Workers.CompareTo | src/main/java/Empleado.java:48-50 | negative exactly when the first worker's priority number is larger, zero when equal, positive when smaller |
| Workers.CompareToIgnoresId | src/main/java/Empleado.java:49 | workers with equal priority compare as 0 both ways, whatever their ids |
| Workers.CompareToAntisymmetric | src/main/java/Empleado.java:49 | compareTo(a, b) is minus compareTo(b, a) |
| Workers.CompareToTransitive | src/main/java/Empleado.java:49 | compareTo is a total preorder: transitive, strictness kept, any two workers comparable |
| Workers.QueueOrderOfRoles | src/main/java/Empleado.java:48-50 | in queue order an operator comes before a supervisor, and a supervisor before a director |
| Workers.IsQueueHead | src/main/java/Dispatcher.java:74 | what PriorityBlockingQueue.poll may hand out: a worker of the pool with a priority number no smaller than any other in the pool |
| Workers.QueueHeadHasLargestPriority | src/main/java/Empleado.java:48-50 | a queue head is exactly a worker of the pool whose priority number is the largest in the pool |
| Workers.QueueHeadExists | src/main/java/Dispatcher.java:74 | every non-empty pool of workers has a head, so poll on a non-empty queue returns one |
| DispatchState.Remove | src/main/java/Dispatcher.java:93 | removing a present call shortens the queue by one; removing an absent call changes nothing |
| DispatchState.RemoveOneOccurrence | src/main/java/Dispatcher.java:93 | remove takes away exactly one occurrence of the call when there is one |
| DispatchState.RemoveDistinct | src/main/java/Dispatcher.java:93 | on a queue without repetitions, remove keeps it without repetitions and the call is gone entirely |
| DispatchState.Inicial | src/main/java/Dispatcher.java:48-55 | the new state has nothing to assign, no outstanding handling, no taken call, an empty log, no workers and an incomplete future |
| DispatchState.Agregar | src/main/java/Dispatcher.java:64-66 | the available workers gain exactly the new worker |
| DispatchState.Procesar | src/main/java/Dispatcher.java:72-83 | a no-op without a worker or a pending call; otherwise the counter and flag are unchanged, the log grows by at most one entry, and a throwing add loses the oldest call and logs nothing |
| DispatchState.Asignar | src/main/java/Dispatcher.java:74-81 | the oldest call leaves the pending queue and joins the back of the in-flight queue with worker e registered for it, (e, call, 0) is logged, e leaves the available workers, and nothing is lost |
| DispatchState.Desbordar | src/main/java/Dispatcher.java:74-76 | the add throws: the oldest call leaves the pending queue and e the available workers, both are recorded as lost, and the in-flight queue, the handlings and the log are unchanged |
| DispatchState.Emitir | src/main/java/Dispatcher.java:108-109 | the counter is incremented and its new value joins the back of the pending queue |
| DispatchState.Liberar | src/main/java/Dispatcher.java:91-95 | freeing a call appends its finish with the worker that handled it, and leaves the pending queue, the counter and the flag as they were |
| DispatchState.Concluir | src/main/java/Dispatcher.java:99-101 | only the flag may change; it is set exactly when it already was or nothing is pending or in flight; once set, nothing changes |
| DispatchState.Completar | src/main/java/Dispatcher.java:91-102 | the log gains the finish (w, c, 1) of the completed call and at most one assignment after it; the counter and the workers ever added are unchanged; the flag is set exactly when it was already set or nothing is pending or in flight afterwards |
| DispatchState.InicialInv | src/main/java/Dispatcher.java:48-55 | the new dispatcher satisfies the invariant |
| DispatchState.AgregarInv | src/main/java/Dispatcher.java:64-66 | adding a worker keeps the invariant |
| DispatchState.EmitirInv | src/main/java/Dispatcher.java:108-109 | issuing an id keeps the invariant: the pending ids stay consecutive after the taken ones |
| DispatchState.EmitirFreshId | src/main/java/Dispatcher.java:109 | the issued id is new: not pending, in flight, finished or lost |
| DispatchState.ProcesarInv | src/main/java/Dispatcher.java:72-83 | procesarLlamada keeps the invariant, on both the assigning and the throwing path |
| DispatchState.ProcesarEffects | src/main/java/Dispatcher.java:73-78 | with room in flight, the oldest call and the worker leave their queues, the call goes in flight with that worker, exactly (worker, call, 0) is logged, the handlings of the other calls are kept, and nothing else changes |
| DispatchState.LiberarInv | src/main/java/Dispatcher.java:91-95 | freeing a call keeps the invariant and leaves room in the in-flight queue |
| DispatchState.CompletarInv | src/main/java/Dispatcher.java:91-102 | a completion keeps the invariant, and the assignment it makes cannot throw |
| DispatchState.CompletarEffects | src/main/java/Dispatcher.java:92-98 | completing call c of worker w: c leaves in flight and the outstanding handlings, (w, c, 1) is appended, w is available again, at most one pending call is then assigned, and nothing is lost |
| DispatchState.CompletarDone | src/main/java/Dispatcher.java:99-101 | the completion that sets the flag finds nothing pending or in flight, and the log then holds one finish per issued call that was not lost |
| DispatchState.IssuedIdsPartition | src/main/java/Dispatcher.java:72-111 | an id is in 1..counter if and only if it is pending, in flight, finished or lost, and it is in only one of these |
| DispatchState.WorkersAccounted | src/main/java/Dispatcher.java:72-102 | the workers ever added are exactly the available ones, the busy ones (one per call in flight) and the lost ones; the busy workers number the calls in flight, which are at most 10 |
| DispatchState.DrainedCount | src/main/java/Dispatcher.java:94-101 | with nothing pending or in flight, the number of tipo-1 entries is the counter minus the lost calls |
| DispatchState.LogOrdered | src/main/java/Dispatcher.java:75-95 | assignments are logged in increasing call order; each finish follows the assignment of the same call to the same worker; each call in flight has its assignment logged; no call finishes twice |
| DispatchState.LogAppendAsignacion | src/main/java/Dispatcher.java:77-78 | logging the assignment of the next id keeps the log well formed and its finishes unchanged |
| DispatchState.LogAppendFinalizacion | src/main/java/Dispatcher.java:94-95 | logging the finish of an assigned call keeps the log well formed and adds exactly that call to the finishes |
| Dispatching.Dispatcher.constructor | src/main/java/Dispatcher.java:48-55 | no workers, no pending or in-flight calls, counter 0, an empty log, an incomplete future, and the invariant holds |
| Dispatching.Dispatcher.AgregarEmpleado | src/main/java/Dispatcher.java:64-66 | exactly the new worker joins the available ones, and the invariant is kept |
| Dispatching.Dispatcher.PollEmpleado | src/main/java/Dispatcher.java:74 | the worker taken out is a head of the queue, and only the queue changes |
| Dispatching.Dispatcher.PollLlamada | src/main/java/Dispatcher.java:75 | the oldest pending call is taken out, and only the pending queue changes |
| Dispatching.Dispatcher.Atender | src/main/java/Dispatcher.java:76-81 | the call goes in flight, its assignment is logged, and its handling is registered with the worker |
| Dispatching.Dispatcher.Perder | src/main/java/Dispatcher.java:76 | after a throwing add, the polled call and worker are recorded as lost |
| Dispatching.Dispatcher.ProcesarLlamada | src/main/java/Dispatcher.java:72-83 | the state moves as the Procesar step; the worker assigned is a head of the available queue; the result is false exactly when the add throws |
| Dispatching.Dispatcher.EmitirLlamada | src/main/java/Dispatcher.java:109 | the state moves as the Emitir step |
| Dispatching.Dispatcher.DispatchCall | src/main/java/Dispatcher.java:108-111 | issue then process, keeping the invariant; a worker assigned is a head of the available queue; the counter grows by one; the log only grows; no call is lost unless the add throws, and then exactly one is |
| Dispatching.Dispatcher.Dispatch | src/main/java/Dispatcher.java:120-124 | the invariant is kept; without a throw exactly num ids are issued and nothing is lost; a throw stops the loop after at most num ids with one call lost; the flag never changes; with num <= 0 nothing changes |
| Dispatching.Dispatcher.LiberarLlamada | src/main/java/Dispatcher.java:92-95 | the worker handed back is the one the handling started with, and the state moves as the Liberar step |
| Dispatching.Dispatcher.CompletarFuturo | src/main/java/Dispatcher.java:99-101 | the state moves as the Concluir step |
| Dispatching.Dispatcher.OnLlamadaDespachada | src/main/java/Dispatcher.java:91-102 | the invariant is kept; the worker returned is the one the handling started with; the state moves as the Completar step; a pending call is given to a head of the available workers, the returned one included |

## Left out

- Threads, the random delay and `Thread.sleep` in `atenderLlamada` (src/main/java/Empleado.java:33-45). Handling is the environment calling `OnLlamadaDespachada` for an outstanding call, which hands back the same worker.
- The blocking `future.get()` of `dispatch` (src/main/java/Dispatcher.java:125), `getFuture`, and the scheduling of `thenAccept` callbacks. The future is the boolean `done`, and each callback is one atomic method.
- Data races. The `LinkedList` and `ArrayList` are shared without synchronisation, and the drain check at src/main/java/Dispatcher.java:99 is not atomic. The model assumes the steps run one at a time.
- The heap layout and tie-breaking of `PriorityBlockingQueue`. The worker polled is any head, that is, any available worker of largest priority number.
- Unicode case mapping and `null` role names. `equalsIgnoreCase` is modelled with ASCII case mapping on non-null strings.
- Wrap-around of the 32-bit `AtomicInteger` counter. The counter is an unbounded integer, which matches the code for fewer than 2^31 calls.
- `main` and its console output (src/main/java/Dispatcher.java:146-165), and the JUnit harness. The test assertions are sources of properties only.
- `getResultados` (src/main/java/Dispatcher.java:142-144), and the getters of `Rol` and `Empleado`. `getResultados` is reading the `resultados` field. The getters of `Rol` and `Empleado` are the destructors of their datatypes.
- `Resultado` (src/main/java/Dispatcher.java:20-32) is a Java class whose fields are never changed after construction, so it is modelled as a datatype.
- Dispatching.Dispatcher.Dispatch: states the counter, the log prefix, the lost calls and the flag after the loop, not the full final state as a composition of steps, because the workers each step polls are chosen anew at each call.
- Dispatching.Dispatcher.ProcesarLlamada: does not itself require or ensure the invariant. Its two callers keep it through `DispatchState.ProcesarInv`.

# unisock event core: a Dafny model and its proofs

unisock is a C++ socket library whose programs are single-threaded loops around `events::poll`. Its core is five pieces of
state that must agree with each other while user callbacks change them in the middle of a loop: the poll handler (two
parallel vectors and a wrapping 16-bit change counter), the dispatch loop over those vectors, the ordered callback lists
of each socket, the containers that own sockets and whose `close()` loops until they are empty, and the TCP connections
with their send queues. This project models that core and proves what it keeps.

The kernel is a parameter: each system call may answer anything its contract allows (a new descriptor is not one that is
open; `send` answers -1 or a count up to the length; `poll` reports a count equal to the entries with non-zero
`revents`). The change counter may start with any value, because the source never initialises it.

## Files

| file | content |
|---|---|
| `handler.dfy` | `PollHandler`: the two vectors as code (class `Handler`) and as a value; they refine a finite map; the counter's arithmetic |
| `actions.dfy` | `Actions`: callback lists with SKIP, STOP_AFTER and QUEUE_END (class `Action`); registration order; when the erase action runs |
| `dispatch.dfy` | `Dispatch`: the poll loop as code over a `Handler`, with callbacks given as scripts of handler operations; which calls a pass makes of those the kernel's answer asks for, and where it ends; exact condition for a stale access |
| `stream.dfy` | `SendQueue`: `send` and `send_flush` as code (class `Connection`) and as a transition; no loss; which bytes are written and in what order; the exact condition for an exact byte stream; the repaired version, labelled so |
| `core.dfy` | `Core`: sockets, containers and handler of a whole program as one state; its invariant; every elementary update keeps it |
| `machine.dfy` | `Machine`: the whole library as a small-step machine with an explicit call stack, driven by arbitrary user code and kernel answers; reading a destroyed object or going on over edited vectors is `Undefined` |
| `safety.dfy`, `preservation.dfy`, `steps.dfy` | the invariant of the machine and its preservation, step by step |
| `runs.dfy` | `Runs`: what holds in every run of the machine |
| `histories.dfy` | `Histories`: each descriptor is closed once, and connections of a client never flush, in every run |
| `closing.dfy` | `Closing`: closed forms of `close()` for a socket, a container and a server; exactly when the container loop ends |
| `reentry.dfy` | `Reentry`: what re-entrant user code that opens no socket can do to the state |
| `order.dfy` | `Order`: the order of the closes of a container or server whatever sockets user code closes in between: exactly when it is kept |
| `engine_facts.dfy` | `EngineFacts`: the same code's effects on values: a CLOSED list with re-entrant user code, a drained container, a socket made and taken back |
| `engine.dfy` | `Engine`: containers, servers and clients as code (class `Program`) that calls user code back in the middle |
| `quiet.dfy` | `Quiet`: the machine's steps under passive user code add up to the closed forms |
| `passes.dfy` | `Passes`: the dispatch loop in runs of the machine: which calls a pass makes of those the kernel's answer asks for |
| `answers.dfy` | `Answers`: what each answer of the kernel and each call from user code comes to in a reachable state when user code returns at once: what is heard, what is sent, what is made and what is left behind |
| `descriptors.dfy` | `Descriptors`: which descriptors are open in the kernel in every run, and when one leaks |
| `nesting.dfy` | `Nesting`: what runs on top of the stack does not look below; loops of `close()` that never end |
| `reaching.dfy` | `Reaching`: runs in which user code returns at once, and where they lead |
| `limits.dfy`, `end_of_stream.dfy` | `Limits`, `EndOfStream`: what happens when user code breaks its obligations, and when the one on `close` is exact |
| `disorder.dfy` | `Disorder`: in the machine, a callback that closes a later socket of its container keeps the order of the closes exactly if it is the next one |

User code appears three ways. In `Machine` it is arbitrary: at every callback it may make any number of calls, including
`listen`, `connect`, `close` of anything and registrations, within the obligations stated by `Machine.UserMay`. In
`Engine` it opens no socket, and the methods are proved to terminate; which sockets it closes out of turn is recorded, and
the order of the closes is kept exactly if there is none among those of the container or server. With `passive` set, or
under `Quiet.Lazy`, it returns at once, and the whole state is exact.

A stale iterator is one into vectors that were edited since the loop took it. An add counts as an edit, because `push_back`
may reallocate; a delete of a descriptor that is held counts, because `erase` moves what follows; a delete of one that is
not held does not, although it moves the change counter.

## Where the code and its documentation disagree

The model follows the code.

- `send_flush` computes the unsent suffix of the front leftover and drops it (includes/tcp/connection.hpp:326): a partial
  flush writes a prefix that will be written again. `SendQueue.FlushExactIff` gives the exact condition.
- `send` writes directly although leftovers are queued (line 238), ahead of them. `SendQueue.SendExactIff`.
- `send_flush` clears the write interest although more leftovers are queued (line 330). `SendQueue.InterestIff`,
  `SendQueue.InterestRunIff`.
- A client's connection has no flushing WRITEABLE callback (includes/tcp/client.hpp:234-247), so its leftovers stay queued.
  `Histories.ClientsNeverFlush`.
- `make_socket` asserts a positive descriptor (includes/socket/socket_container.hpp:59), and 0 is one the kernel may hand
  out. `Runs.EveryRunIsDefined`: a run aborts exactly when it accepts a descriptor 0.
- A refused insertion "should not happen" (includes/socket/socket_container.hpp:108); it does when a container still holds
  a closed object under a descriptor that the kernel hands out again, as in a reconnect from inside CLOSED. The descriptor
  then leaks. `Descriptors.ReconnectIsRefused`, `Descriptors.KernelIsKnown`, `Core.RefusedOnlyByClosed`.

## Model

| member | source | states |
|---|---|---|
| PollHandler.CounterCounts | includes/events/polling_handler.hpp:72-124 | over any sequence of handler operations the 16-bit counter is the start plus the number of adds and deletes, less whole turns of 65536 |
| PollHandler.UnseenIffMultiple | includes/events/polling_handler.hpp:100-115 | a batch of changes leaves the counter equal exactly when their number is a multiple of 65536, for any starting value |
| PollHandler.SearchIsLookup | src/events/handlers/poll.cpp:46-48 | the linear search finds a descriptor exactly when the map holds it, and its entry is the map's |
| PollHandler.StaysWellFormedIff | includes/events/handlers/poll/handler_impl.hpp:53-61 | same size and distinct descriptors survive an operation exactly when it is not an add of a descriptor already held |
| PollHandler.VectorsRefineMap | src/events/handlers/poll.cpp:32-92 | over any sequence of add, delete, want_read and want_write the two vectors are a finite map from descriptor to object and interest |
| PollHandler.DeleteKeepsOrder | src/events/handlers/poll.cpp:44-53 | deletion removes exactly the entry of that descriptor from both vectors at the same position; the others keep order and pairing |
| PollHandler.InterestIsLocal | src/events/handlers/poll.cpp:70-92 | a flag update changes only its own bit of its own entry |
| PollHandler.InterestOfOthers | src/events/handlers/poll.cpp:32-53 | adding or deleting a descriptor leaves the write interest of every other one alone |
| PollHandler.Handler.FindSocket | src/events/handlers/poll.cpp:46-46 | the search loop returns the first position of the descriptor, or the end |
| PollHandler.Handler.AddSocket | includes/events/polling_handler.hpp:72-76 | appends to both vectors and moves the counter |
| PollHandler.Handler.DeleteSocket | includes/events/polling_handler.hpp:83-87 | cuts one position out of both vectors, or nothing, and moves the counter either way |
| PollHandler.Handler.SocketWantWrite | src/events/handlers/poll.cpp:83-92 | sets or clears POLLOUT of that descriptor's entry and nothing else |
| Actions.RegistrationOrder | includes/events/action_hanlder.hpp:113-123 | after any registrations the list is the callbacks without QUEUE_END in order, then those with it in reverse order |
| Actions.FirstQueuedStaysLast | includes/events/action_hanlder.hpp:64-69 | the QUEUE_END callback registered first is last for ever |
| Actions.LastRunsIff | includes/events/action_hanlder.hpp:125-142 | the last callback runs exactly when nothing before it that is not SKIP has STOP_AFTER, and then after all others that are not SKIP |
| Actions.EraseRunsIff | includes/socket/socket_container.hpp:112-119 | the container's erase action runs exactly when no callback registered later that is not SKIP stops the list, and then once and last |
| Actions.Action.AddCallback | includes/events/action_hanlder.hpp:113-123 | the backward scan inserts just after the last callback without QUEUE_END |
| Actions.Action.Execute | includes/events/action_hanlder.hpp:126-142 | the loop with SKIP and STOP_AFTER runs exactly the specified callbacks in order |
| Dispatch.StaleIffUnseen | includes/events/handlers/poll/poll_impl.hpp:48-75 | the loop goes on over edited vectors exactly when the last callback edited them, made a multiple of 65536 adds and deletes, and the early exit did not stop the loop |
| Dispatch.PassGoesWrongIff | includes/events/handlers/poll/poll_impl.hpp:45-76 | with the count poll returns, a pass goes wrong exactly when the first callback to edit the vectors or move the counter edits them with a multiple of 65536 adds and deletes and is not the writeable call with which the countdown ends: a condition on the report, the descriptors held and the callbacks alone |
| Dispatch.SomePassGoesWrong | includes/events/handlers/poll/poll_impl.hpp:48-75 | such passes exist, for any value of the counter: one entry reported readable whose callback adds 65536 descriptors |
| Dispatch.AbsentDeletesAreHarmless | src/events/handlers/poll.cpp:44-53 | any number of deletes of descriptors that are not held edits nothing, so that a callback of them is never what makes a pass go wrong |
| Dispatch.OnlyLastChanges | includes/events/handlers/poll/poll_impl.hpp:62-74 | every callback before the last one that a pass ran left the vectors alone and the counter where it was: a visible change makes the loop leave |
| Dispatch.BoundedCallbacksAreSafe | includes/events/handlers/poll/poll_impl.hpp:48-75 | with fewer than 65536 adds and deletes per callback every pass finishes without a stale access |
| Dispatch.CallsAreReported | includes/events/handlers/poll/poll_impl.hpp:56-70 | every call goes to the object paired with a descriptor that was itself reported with that event |
| Dispatch.ServesFirst | includes/events/handlers/poll/poll_impl.hpp:72-74 | with callbacks that edit nothing and do not move the counter, a countdown from n serves exactly the first n ready entries, or all if n is not between one and their number |
| Dispatch.DispatchIsComplete | includes/events/handlers/poll/poll_impl.hpp:47-74 | with such callbacks and the count poll returns, the early exit skips nothing: one readable call per POLLIN entry, one writeable call per POLLOUT entry, in index order, read before write |
| Dispatch.CallsMatchCallbacks | includes/events/handlers/poll/poll_impl.hpp:48-75 | for any count and any callbacks, whether the pass finishes or goes wrong: one call for each callback that ran, the calls are the first of those the report asks for, and a finished pass leaves the handler as these callbacks made it |
| Dispatch.StopsAtFirstChange | includes/events/handlers/poll/poll_impl.hpp:62-74 | with the count poll returns and any callbacks, a pass ends after the first callback that edits the vectors or moves the counter, and makes all calls if there is none |
| Dispatch.ReportIsDue | includes/events/handlers/poll/poll_impl.hpp:47-70 | the calls a report asks for are those of the kernel's own answers: position by position its object and its descriptor, with the events answered for that position |
| Dispatch.DueIffAsked | includes/events/handlers/poll/poll_impl.hpp:56-70 | a call is due exactly if the kernel's answer at some position asks for that event of the object and the descriptor at that position |
| Dispatch.PollImpl | includes/events/handlers/poll/poll_impl.hpp:45-76 | on a handler that callbacks change, unless the pass goes wrong, the iterator loop is in bounds throughout, terminates, and does what the specification of a pass says; it makes one call for each callback that ran, the first of those the report asks for, and leaves the handler as these callbacks made it |
| Dispatch.Poll | includes/events/events.hpp:43-49 | false exactly on an empty handler, which it leaves alone; otherwise its calls are the first of those the kernel's own answer asks for, position by position, up to and with the first callback that edits the vectors or moves the counter, or all of them if there is none; and the handler is what exactly the callbacks called made of it |
| SendQueue.NoLoss | includes/tcp/connection.hpp:236-251 | after every run the queue is the unsent tails in send order less the front ones each removed by one write that took all of it, and every accepted byte is on the wire or queued |
| SendQueue.WritesBeginning | includes/tcp/connection.hpp:238-318 | every send puts on the wire a beginning of its message, and every flush one of the first leftover, as long as the kernel's answer, behind what is there |
| SendQueue.WireFollowsMessages | includes/tcp/connection.hpp:236-331 | in every run, bytes told apart by message and offset: no byte is written before the one in front of it in its message, and each leftover is a piece of one message whose earlier bytes are all on the wire |
| SendQueue.WireIsWhatWasTaken | includes/tcp/connection.hpp:236-331 | in every run the wire is as long as the kernel's answers together |
| SendQueue.SendExactIff | includes/tcp/connection.hpp:236-251 | a send keeps wire plus queue equal to what was accepted exactly when it writes nothing or no leftover is queued |
| SendQueue.FlushExactIff | includes/tcp/connection.hpp:313-331 | a flush keeps it exactly when it takes nothing or the whole front |
| SendQueue.WrittenExactIff | includes/tcp/connection.hpp:236-331 | over whole runs the stream is exact exactly when every step was so, bytes being told apart |
| SendQueue.PlainRunExactIff | includes/tcp/connection.hpp:236-331 | the same for runs of plain bytes, judged on where each byte comes from |
| SendQueue.InterestIff | includes/tcp/connection.hpp:329-330 | write interest stays equivalent to a non-empty queue exactly when the step does not empty the front of a longer queue |
| SendQueue.InterestRunIff | includes/tcp/connection.hpp:236-331 | over whole runs interest can be lost and won back: at the end it is lost exactly when, of the operations that wrote the flag or changed the queue, the last was a flush that took the front of a longer queue |
| SendQueue.RepairedIsExact | includes/tcp/connection.hpp:222-227 | of a repaired version, not the code: the stream is exact and interest equals a non-empty queue in all runs |
| SendQueue.Connection.Send | includes/tcp/connection.hpp:236-251 | the code of send on queue and handler is the specified transition, puts a beginning of the message as long as the kernel's answer on the wire, and leaves the interest of other descriptors alone |
| SendQueue.Connection.SendFlush | includes/tcp/connection.hpp:313-331 | the same for send_flush, which writes a beginning of the first leftover |
| Core.InsertedKeeps | includes/socket/socket_container.hpp:104-123 | inserting a fresh descriptor keeps the invariant of the whole state |
| Core.ShutKeeps | includes/socket/socket.hpp:236-243 | taking a socket out of the handler and closing its descriptor keeps it |
| Core.ErasedKeeps | includes/socket/socket_container.hpp:114-117 | destroying a closed object keeps it and removes exactly that object |
| Core.SentKeeps | includes/tcp/connection.hpp:236-251 | a send on one connection keeps it, the interest bits of all others included |
| Core.FlushedKeeps | includes/tcp/connection.hpp:313-331 | a flush keeps it |
| Core.RefusedOnlyByClosed | includes/socket/socket_container.hpp:106-108 | a container refuses a descriptor fresh from the kernel exactly when it still holds a closed object under that number |
| Descriptors.KernelIsKnown | includes/socket/socket_container.hpp:57-123 | in every run the descriptors open in the kernel are those of open sockets, those open at the start and those a container refused, all different: one leaks exactly if one is refused |
| Descriptors.ReconnectIsRefused | includes/socket/socket_container.hpp:106-108 | a refusal is reachable: a reconnect from inside CLOSED to which the kernel answers with the descriptor just closed, which then belongs to no socket |
| Steps.StepKeeps | includes/socket/socket_container.hpp:57-123 | every allowed step of user code, kernel or library keeps the invariant, is defined, and aborts only where the kernel answers an accept with descriptor 0 |
| Steps.ZeroAborts | includes/socket/socket_container.hpp:57-60 | and there it does abort |
| Runs.EveryRunIsDefined | includes/events/action_hanlder.hpp:125-142 | in no run does execute, close, recv, listen, connect or the dispatch loop read a destroyed socket or go on over edited vectors, even when a callback closes its socket or the whole server; and a run aborts exactly when it accepts a descriptor 0 |
| Runs.HandlerIsTheOpenSockets | src/events/handlers/poll.cpp:32-53 | in every reachable state the handler maps the descriptor of each open live object to it and holds nothing else; keys equal descriptors; no entry or key refers to an erased object |
| Passes.LoopCallsReportedObjects | includes/events/handlers/poll/poll_impl.hpp:56-70 | whenever the loop calls an object in a pass of any run, it is alive and open, and the kernel's own answer for the position it was at, under the descriptor it still has, carries that event |
| Passes.PassCallsWhatIsDue | includes/events/handlers/poll/poll_impl.hpp:47-74 | in any run, whatever user code does: the calls of a pass so far are the first of those the kernel's answer asks for, in index order |
| Passes.PassIsComplete | includes/events/handlers/poll/poll_impl.hpp:47-74 | in any run, a pass during which nothing was added or deleted makes exactly one readable call for each position the kernel answered with POLLIN and one writeable call for each answered with POLLOUT, in index order, read before write: the calls of `Dispatch.Pass` |
| Runs.StreamsAreSound | includes/tcp/connection.hpp:236-331 | in every reachable state no accepted byte of any connection is lost, the leftovers flushed and those queued are the unsent tails of its messages in order, and POLLOUT in the handler implies a non-empty queue |
| Histories.StreamExactIff | includes/tcp/connection.hpp:236-331 | in every reachable state the stream of each connection is made by a run of sends and flushes; it is exact exactly if each was orderly, and interest is lost exactly as `SendQueue.InterestRunIff` says |
| Histories.WireFollowsMessages | includes/tcp/connection.hpp:236-331 | in every reachable state, for each connection: the wire is as long as the kernel's answers together, and no byte is on it before the one in front of it in its message |
| Runs.FlushNeverFindsNothing | includes/tcp/connection.hpp:315-316 | a flush called by the dispatch loop never takes the empty early return |
| Runs.EveryConversationIsProper | includes/tcp/server.hpp:296-345 | each accepted client is heard as ACCEPT, any number of RECEIVE, at most one DISCONNECT and nothing after it; none leaves its container without a DISCONNECT. That each is raised when it should be is `Answers.AcceptOpens`, `Answers.ReceiveIsRaised` and `Answers.EndIsClosed` |
| Histories.EachIsClosedOnce | includes/socket/socket.hpp:234-246 | in every reachable state the descriptor of each socket ever made was closed exactly once if it is no longer open and never if it is |
| Histories.ReachableConsistent | includes/socket/socket_container.hpp:57-123 | every reachable state meets what the results about closing ask of a state |
| Histories.ClientsNeverFlush | includes/tcp/client.hpp:234-247 | in every reachable state nothing has left the queue of a client's connection, and what is not on the wire of all it accepted is still queued |
| Closing.ErasesIffClean | includes/socket/socket_container.hpp:112-119 | executing CLOSED destroys the object exactly when no callback before the erase action stops the list |
| Closing.CloseEndsIff | includes/socket/socket_container.hpp:94-101 | with passive user code the loop ends, with an empty map, exactly when every contained socket is open and its erase action will run |
| Closing.ClosesInOrder | includes/socket/socket_container.hpp:94-101 | with passive user code it then closes each socket once in ascending descriptor order and leaves all other objects, keys and handler entries as they were, in order |
| Closing.ServerCloses | includes/tcp/server.hpp:217-221 | with passive user code every DISCONNECT in ascending order, then every listener's CLOSED in ascending order, each after its descriptor was closed |
| Closing.PollEndsIffNothingElse | includes/events/events.hpp:43-49 | after closing a server the handler is empty, so that poll returns false, exactly when no other entity has an open socket |
| Reentry.CloseShrinks | includes/socket/socket.hpp:234-246 | the whole of close, whatever its callbacks do: the object goes or stays by its list, no pinned socket is touched or heard of, surviving entries keep their order, and what is heard of the socket is its close and then its events |
| Engine.Program.UserCode | includes/events/action_hanlder.hpp:125-142 | any finite sequence of re-entrant closes, sends and registrations within the limits named below keeps the invariant, ends, leaves pinned and closing sockets alone, and leaves surviving handler entries in order; every line of sockets closed in turn stays in order, and one with a socket closed out of turn is out of order for good |
| Engine.Program.CloseSocket | includes/socket/socket.hpp:234-246 | close ends whatever re-entrant user code does; a clean socket is destroyed; each descriptor is closed exactly once, and user code hears of it after that; with passive user code the result is the closed form |
| Engine.Program.ExecuteClosed | includes/events/action_hanlder.hpp:126-142 | the loop over the list inside the object reads it only while it is alive; the object is gone afterwards exactly if its list was clean; the events raised are those of the callbacks that ran, in order |
| Engine.Program.CloseContainer | includes/socket/socket_container.hpp:94-101 | the loop ends with an empty map under re-entrant user code that opens nothing; the sockets are closed, and user code told so, each once in ascending descriptor order exactly if user code closed none of them out of turn; with passive user code it drains exactly |
| Engine.Program.CloseServer | includes/tcp/server.hpp:217-221 | both containers end empty; all clients are closed and then all listeners, each in ascending descriptor order and each followed by its event, exactly if user code closed none of them out of turn, nor a listener before the last client; with passive user code the state and when the handler is empty are exact |
| Engine.Program.CloseClient | includes/tcp/client.hpp:181-184 | the client's container ends empty, its sockets closed in ascending order exactly if user code closed none of them out of turn |
| Order.OneInTurn | includes/socket/socket.hpp:234-246 | closing any open socket keeps every line it stands in in order exactly if it is the first of that line, and can never be made good otherwise |
| Order.LoopClosesInTurn | includes/socket/socket_container.hpp:94-101 | the loop itself always closes the socket whose turn it is, in its container and in its server |
| Order.ContainerInOrderIff | includes/socket/socket_container.hpp:94-101 | a container was closed in ascending order exactly if none of its sockets was closed out of turn |
| Order.ServerInOrderIff | includes/tcp/server.hpp:217-221 | a server was closed clients first and each part in ascending order exactly if none of its sockets was closed out of turn |
| Disorder.HookKeepsOrderIff | includes/socket/socket_container.hpp:94-101 | in the callback of any socket of a container being closed, an allowed close of a later one: all are still closed, in ascending order exactly if it is the next one |
| Engine.Program.InsertSocket | includes/socket/socket_container.hpp:104-123 | map, object, erase action and handler entry, or nothing at all when the key is taken |
| Engine.Program.MakeSocket | includes/socket/socket_container.hpp:77-87 | nothing on a failed system call; a refused insertion leaves the descriptor open |
| Engine.Program.Listen | includes/tcp/server.hpp:233-288 | true exactly when every stage succeeds; on failure nothing inserted survives, and with passive user code all is as before: the ERROR event is raised once, and then the descriptor closed and CLOSED raised once if a socket had been inserted |
| Engine.Program.Connect | includes/tcp/client.hpp:198-252 | the same for connect, whose ERROR event comes before the close if the address is not found and after it if the connection is refused |
| Engine.Program.AcceptOn | includes/tcp/server.hpp:296-345 | it aborts exactly on a closed listener or descriptor 0; otherwise the invariant is kept, and with passive user code the result is that of the machine's accept: a client told of, or one ERROR event |
| EngineFacts.RollsBack | includes/tcp/server.hpp:249-275 | closing the socket just made restores heap, containers, both vectors and the kernel's descriptors, closes its descriptor and raises CLOSED once |
| Quiet.ListRuns | includes/events/action_hanlder.hpp:126-142 | the machine's steps through a CLOSED list with passive user code add up to the closed form |
| Quiet.CloseRuns | includes/socket/socket.hpp:234-246 | the machine's close, run to its end, is the closed form |
| Quiet.DrainsFully | includes/socket/socket_container.hpp:94-101 | the machine's container loop, over sockets that are open and clean, ends and leaves the container drained |
| Nesting.LoopNeverEnds | includes/socket/socket_container.hpp:94-101 | in no run of the machine, whatever user code does, does the loop end over a container with a closed socket that is still there and not being executed above it |
| Nesting.ServerCloseNeverReturns | includes/tcp/server.hpp:217-221 | closing a server from inside the DISCONNECT callback of one of its clients: in no run does that call return |
| Quiet.ServerCloseRuns | includes/tcp/server.hpp:217-221 | the machine's server close runs to its end with the events in order and the handler empty exactly when nothing else is open |
| Answers.ReceiveIsRaised | includes/tcp/connection.hpp:289-305 | in any reachable state in which the READABLE call of a connection begins and `recv` gets bytes: user code hears RECEIVE once, of the server or of the client the connection belongs to, and nothing else changes |
| Answers.EndIsClosed | includes/tcp/connection.hpp:298-302 | when `recv` finds the end of the stream, a connection whose erase action will run is closed and destroyed with one event, and everything else stays but for its entry |
| Answers.RecvFails | includes/tcp/connection.hpp:293-297 | when `recv` fails, each ERROR callback of the connection is called that is not skipped and not behind one that stops the list, and nothing changes |
| Answers.FlushSends | includes/tcp/connection.hpp:313-331 | in any reachable state in which a flush is about to run and the kernel takes n bytes: the first n bytes of the first leftover come to the wire, the leftover goes exactly if that is all of it, and no other socket changes |
| Answers.FlushFails | includes/tcp/connection.hpp:319-323 | a flush that fails changes nothing and calls the ERROR callbacks |
| Answers.SendTakes | includes/tcp/connection.hpp:236-251 | in any reachable state in which user code sends: the bytes the kernel takes of the message come to the wire, the rest to the end of the queue, and no other socket changes |
| Answers.SendFails | includes/tcp/connection.hpp:239-243 | a send that fails changes nothing and calls the ERROR callbacks |
| Answers.ExecutesAsListed | includes/events/action_hanlder.hpp:126-142 | in any reachable state, a list that makes no system call calls user code once for each callback that `Actions.Executed` lists but the erase action, and is then left |
| Answers.RegistrationAdds | includes/events/action_hanlder.hpp:113-123 | a registration puts one callback with its flags just behind the last one without QUEUE_END of that list of that socket, and changes nothing else |
| Answers.ListenOpens | includes/tcp/server.hpp:233-288 | a listen that succeeds adds one listener: its key, its entry asking for POLLIN, accept on READABLE, CLOSED raised before it is erased; and LISTEN is raised |
| Answers.ConnectOpens | includes/tcp/client.hpp:198-252 | a connect that succeeds adds one connection: its key, its entry, recv on READABLE, RECEIVE raised on data, CLOSED before it is erased; and CONNECT is raised |
| Answers.AcceptOpens | includes/tcp/server.hpp:296-345 | an accept that succeeds adds one client: its key, its entry, recv on READABLE, flush on WRITEABLE, RECEIVE raised on data, DISCONNECT before it is erased; and ACCEPT is raised |
| Answers.AcceptFails | includes/tcp/server.hpp:303-316 | an accept that fails, or whose descriptor the container refuses, adds nothing and raises the ERROR event once |
| Answers.ConnectFails | includes/tcp/client.hpp:198-232 | in any reachable state, a connect that fails leaves objects, containers, both vectors and the kernel's descriptors as they were, but for a descriptor its container refused; a connection that had been inserted is closed, with one CLOSED, after the ERROR event if the address was not found and before it if the connection was refused |
| Answers.ListenFails | includes/tcp/server.hpp:233-275 | the same for listen, whose ERROR event always comes first |
| Limits.CloseOfPinned | includes/events/action_hanlder.hpp:126-142 | a callback that closes a socket which an activation below will read again may make the library read the destroyed object, whatever callbacks, executions and closes still to come run in between |
| Limits.ServerCloseOfPinned | includes/tcp/server.hpp:217-221 | the same when the callback closes the server the socket belongs to |
| Limits.ClientCloseOfPinned | includes/tcp/client.hpp:181-184 | the same when it closes the client the socket belongs to |
| Limits.CloseIsSafeIff | includes/socket/socket.hpp:234-246 | in any reachable state in which user code is called, after it closes an open clean socket some run that keeps all obligations goes wrong exactly when an activation anywhere below will read that socket again, unless a loop of `socket_container::close` runs above that activation |
| Limits.LoopShields | includes/socket/socket_container.hpp:94-101 | and why such a loop is excepted: one that cannot end hides what is below, so that no run goes wrong although an activation below would read the socket |
| Limits.LoopThatEnds | includes/socket/socket_container.hpp:94-101 | one that can end hides nothing: called in the callback of its first socket, with every other socket of its container open and clean, the close may again make the library read the destroyed object |
| EndOfStream.RecvMustBeLast | includes/tcp/connection.hpp:298-302 | at the end of a stream a recv that is the last callback of READABLE leaves everything in order, and one with a callback after it makes execute read the erased socket |
| EndOfStream.ExtraReadableGoesWrong | includes/tcp/server.hpp:320-324 | in any run, between two passes, one more READABLE callback on an accepted client whose erase action will run, the client reported readable, and a recv that answers 0 may make the library read the erased client |
| EndOfStream.AcceptedClientIsReachable | includes/tcp/server.hpp:296-345 | such states occur: a server listens, is reported readable and accepts |
| Limits.RegisterWhileExecuting | includes/events/action_hanlder.hpp:113-142 | a callback that registers another on the list it was called from, with callbacks of it still to run, makes the loop go on over a vector that was inserted into |
| Limits.ErrorHookMustNotClose | includes/tcp/server.hpp:249-275 | the ERROR callback of a failing listen is called while its socket is open; if it closes the server, the socket->close() that follows is called on an erased object |

## Left out

- Real sockets, time and errno: every answer of the kernel is a parameter or a choice of the machine.
- Obligations of user code in the machine (`Machine.UserMay`): it passes live objects, closes a socket only when no
  activation will read that socket again, registers on no list that is executing, and on READABLE of listeners only.
  `Limits.CloseIsSafeIff`, `Limits.RegisterWhileExecuting` and `EndOfStream.ExtraReadableGoesWrong` show what happens
  otherwise. The obligation on `close` is exact unless a loop of `socket_container::close` runs between the call and the
  activation; `Limits.LoopShields` and `Limits.LoopThatEnds` say what such a loop does.
- Engine.Program.UserCode: user code there opens no socket, because a loop over a container that user code refills need not
  end; closes a server or client only if that can end; and registers on CLOSED only of open sockets and only callbacks that
  do not stop the list, because a container with an unclean socket is never empty. The machine covers all of that, without
  termination.
- Engine.Program.Send: the ERROR callbacks of a failed send are taken as further calls of the user code that sent, so that
  their scripts stay finite.
- Engine.Program.AcceptOn: says nothing of the whole state when user code is not passive; the machine does.
- Closing.ServerCloses: the whole state, with passive user code only; the order of the closes under other user code is that of
  `Engine.Program.CloseServer`, and of `Disorder.HookKeepsOrderIff`.
- Closing.ClosesInOrder: the same, with `Engine.Program.CloseContainer`.
- `recv`, `send_flush` and the dispatch loop around whole programs run as steps of the machine; `Program` has no method for
  them, since `execute` over lists that user code may shorten at any time is what the machine's stack is for.
- Objects are values under identities, so that destroying one can be stated; addresses, copies into the map and the
  closure that is destroyed during its own call are not modelled.
- All containers of a program share one map from container and descriptor to object; each has its own part of it.
- `pollfd` masks are sets of three bits; POLLERR stands for every bit that is reported without being asked for.
- A `poll` that returns -1, nested `events::poll` calls and exceptions from callbacks.
- The narrowing of the result of `send` and `recv` to `int`, for counts of 2^31 and more.
- The ERROR lists of connections are executed as callback lists but not recorded in the log; the ERROR events of servers and
  clients are (`Core.Failed`), without the name of the call and errno.
- `socket::open` on a socket already in a container, and user calls of `set_want_read` and `set_want_write`, which can
  break the tie between write interest and queue.
- `socket_address`, name resolution and its retries, `bind`, `listen` and `connect` system calls: one stage parameter says
  how far they get.
- Template machinery (action look-up, entity data, reinterpretation of connection types): one list per event tag instead.
- UDP and raw sockets, `client_impl::send`, the default client constructor, TLS, and the EPOLL, KQUEUE and SELECT variants.
- Fairness: the loop leaves on any change, so an early busy entry can delay later ones; the source claims nothing here.

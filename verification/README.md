# A verified model of the reactor library

The repository is a small reactor networking library with a set of concurrency
primitives. This project models its hard core in Dafny and proves what the pieces keep
over whole runs. `dafny verify dfyconfig.toml` checks everything.

## How the model is laid out

Code in which threads interleave is a state machine. Each lock, unlock, shared read and
shared write of the source is one step of one of arbitrarily many threads, a schedule is
any sequence of such steps, and the theorems are about every schedule. A step completes,
is blocked, or faults; a fault is a failed `assert` or a dangling pointer followed, so
"no fault" is part of every run theorem.

Code that runs on one thread is a class with the source's fields, updated in place. Each
method is proved against a function on the object's value, and the theorems about runs
are lemmas about those functions.

| file | what it models |
|---|---|
| `Wrappers.dfy` | the optional value and the outcome of a step |
| `TwoLockQueue.dfy` | the linked queue with separate head and tail mutexes, step by step |
| `TwoLockQueueCalls.dfy` | that queue seen by its callers: what they asked for, read from the schedule |
| `LinkedQueue.dfy` | the same list in place, one call at a time |
| `HierarchicalMutex.dfy` | mutexes with levels, step by step |
| `BlockingQueue.dfy`, `BlockingQueueCalls.dfy` | one mutex, one condition variable, spurious wake-ups; and its callers |
| `Histories.dfy` | which thread is behind which value of a history |
| `Buffer.dfy` | the growing buffer: its value, runs of it, and the array under it |
| `Epoller.dfy` | channels and the epoll wrapper |
| `Connection.dfy` | what each call does to a TCP connection's value, and runs of them |
| `TcpConnection.dfy` | the connection object over its socket, channel and buffers |
| `TcpServer.dfy` | the life of connections on a single loop, as a machine |
| `TcpServerCalls.dfy` | the same machine seen from one connection and from the application |
| `Server.dfy` | the server object with its map of connections |
| `EventLoop.dfy` | deferred functions and wake-ups, as a machine and as an object |
| `TimerQueue.dfy` | the timer set, its handler and the arming of the descriptor |
| `ConnectorSteps.dfy`, `Connector.dfy` | the retrying connector, as values in a loop and as an object |
| `Numerals.dfy`, `LoggingStream.dfy` | integer printing against a parser, and the log stream |
| `SharedPtrSteps.dfy`, `SharedPtr.dfy` | the reference-counted pointer over any program, and in place |

The environment is abstract. A write accepts any prefix or fails, a read delivers any
bytes up to the room it was given, the kernel's interest set is a map, the allocator
picks any free address, the clock and the poll return anything the theorem does not
exclude.

## Where the code differs from what a reader expects

The model follows the code in each case.

- The direct write of `sendInLoop` asks for a non-empty buffer with write interest off
  (reactor/TcpConnection.cc:61). While the connection is open that never holds
  (`Connection.OutputInOrder`); after `handleClose` it can, and then a message overtakes
  earlier bytes (`Connection.CloseLetsAMessageOvertake`).
- `queueInLoop` wakes the loop for calls on the loop's own thread, not for foreign ones
  (reactor/EventLoop.cc:100, against the comment on that line). A foreign thread wakes it
  exactly when it finds the loop running its deferred functions
  (`EventLoop.ForeignWakesIff`, `EventLoop.ForeignEnqueueMayWait`).
- `sendInLoop` does not look at the state. A send queued by another thread keeps the
  half-close right exactly if it brings nothing or still finds the write side up
  (`Connection.ShutdownAfterLastByte`); one that runs behind `connectDestoryed` puts the
  destroyed connection back into the poller, whatever the write answers, exactly unless it
  brings nothing (`TcpServer.LateSendRevivesIff`, `TcpServer.LateSendRevives`).
- A hang-up reported without readability runs the close callback and then the read
  callback (reactor/Channel.cc:58-72). The event fails an assertion if and only if that
  read finds the end of the stream (`TcpServer.EventFailsIff`), and it does in a run from
  the start (`TcpServer.RudeEventFails`).
- `operator=` of the shared pointer increments the counter without testing the pointer
  (thread/test/shared_ptr_test.cc:61), so it fails exactly when the source is another
  handle and null (`SharedPtrSteps.AssignFailsIff`, `SharedPtrSteps.NullAssignFails`).
- The connector's `restart` fails its no-channel assertion exactly while an attempt is
  under way or the queued `resetChannel` of the last one has not run, and its retry timer
  exactly in the second case (`ConnectorSteps.RestartFailsIff`); both happen
  (`ConnectorSteps.TooSoonFails`).

## Model

| member | source | states |
|---|---|---|
| TwoLockQueue.QueueIsFifo | thread/threadsafe_queue_test.cc:32-127 | In every interleaving of any number of pushers and poppers nothing faults, and the values popped, followed by those found by walking memory from the front to `tail_`, are exactly the values pushed, in order; no other sequence can be read off the memory. |
| TwoLockQueue.AnswersAreRight | thread/threadsafe_queue_test.cc:71-127 | Every finished pop holds the value pushed at its own place, which no other thread holds; a null `try_pop` or a true `empty` means all values pushed by the time of the tail snapshot had been popped. |
| TwoLockQueueCalls.PushedAsTold | thread/threadsafe_queue_test.cc:103-114 | In every run, for every thread: the values it has published, followed by the one it has in hand, are those its calls of `push` were given, in order. |
| TwoLockQueueCalls.NothingLostOrMade | thread/threadsafe_queue_test.cc:103-114 | In every run every value has been published, or is in some thread's hand, exactly as often as the calls of `push` were given it. |
| TwoLockQueueCalls.ReturnedAsTaken | thread/threadsafe_queue_test.cc:37-123 | In every run, for every thread: the values its pops returned, followed by the one it has taken off and not returned, are those it took off, in order; none is dropped or returned twice. |
| TwoLockQueueCalls.AnswersFit | thread/threadsafe_queue_test.cc:71-128 | In every run every thread stands in the call it last began, with the value it was given, and a finished call has an answer of its kind: a waiting pop always a value, `try_pop` a value or nothing, `empty` a truth value. |
| TwoLockQueueCalls.BlockedIff | thread/threadsafe_queue_test.cc:32-127 | Inside a call a thread is held up exactly by a lock that is taken. |
| TwoLockQueueCalls.NoDeadlock | thread/threadsafe_queue_test.cc:32-127 | In every run, as long as some thread is inside a call, some thread can step. |
| TwoLockQueue.SnapshotInstant | thread/threadsafe_queue_test.cc:32-35 | The totals an answer carries are those at the instant `get_tail` reads `tail_`, and they agree exactly when the list in memory is empty at that instant. |
| TwoLockQueue.StaleCompare | thread/threadsafe_queue_test.cc:71-76 | Comparing `head_` with a stale snapshot of the tail still tells whether the queue was empty when the snapshot was taken. |
| TwoLockQueue.NoDataRace | thread/threadsafe_queue_test.cc:32-127 | In every run no two threads are ever about to touch one variable or node with one of them writing, so a consumer under the head lock never meets the node a producer fills under the tail lock. |
| TwoLockQueue.StepWritesOnly | thread/threadsafe_queue_test.cc:32-127 | The writes this speaks of are all there are: no step changes any other variable or node, but to make a new one. |
| TwoLockQueue.StepReadsOnly | thread/threadsafe_queue_test.cc:32-127 | And so are the reads: from two states that agree on them, a step takes its thread to the same place with the same locks, |
| TwoLockQueue.StepWritesFrom | thread/threadsafe_queue_test.cc:32-127 | and leaves the same in every place it writes, if they agreed on those too. |
| TwoLockQueue.WriteIsExclusive | thread/threadsafe_queue_test.cc:37-41 | From the invariant alone: whatever a thread writes next is disjoint from all another thread reads or writes next. |
| TwoLockQueue.TouchedByOne | thread/threadsafe_queue_test.cc:32-127 | Even a place that both would only read is never touched by two threads at once. |
| TwoLockQueue.OrderOnlyGrows | thread/threadsafe_queue_test.cc:37-41 | Only publishing `tail_` adds to what is pushed; only advancing `head_` adds to what is popped, and it adds the oldest value left. |
| TwoLockQueue.ListIsPath | thread/threadsafe_queue_test.cc:37-41 | The nodes in order are one acyclic chain of `next` pointers carrying the values not yet popped. |
| TwoLockQueue.PathUnique | thread/threadsafe_queue_test.cc:21-24 | Memory determines the values between two nodes. |
| TwoLockQueue.NoLeak | thread/threadsafe_queue_test.cc:98-123 | With no call in progress the allocated nodes are exactly the list's, one more than the values not yet popped: every node taken off was freed. |
| TwoLockQueue.StepKeepsInv | thread/threadsafe_queue_test.cc:32-127 | Every atomic step of every entry point keeps locks, list shape, node ownership, thread facts and history in agreement, and none faults. |
| TwoLockQueue.RunKeepsInv | thread/threadsafe_queue_test.cc:18-129 | The same over every schedule. |
| TwoLockQueue.TailWrite | thread/threadsafe_queue_test.cc:109-110 | A producer's write to the dummy disturbs neither the list before it nor what any other thread relies on. |
| LinkedQueue.LinkedQueue.constructor | thread/threadsafe_queue_test.cc:88-90 | A new queue is one dummy node and holds nothing. |
| LinkedQueue.LinkedQueue.Push | thread/threadsafe_queue_test.cc:103-114 | In place on the heap, the value goes behind all others, the old dummy becomes its node and a fresh dummy ends the list. |
| LinkedQueue.LinkedQueue.PopHead | thread/threadsafe_queue_test.cc:37-41 | The first node comes off, linked to nothing, with the oldest value; the rest is the list unchanged. |
| LinkedQueue.LinkedQueue.TryPop | thread/threadsafe_queue_test.cc:120-123 | Nothing from an empty queue, else the oldest value, and the rest stays. |
| LinkedQueue.LinkedQueue.Empty | thread/threadsafe_queue_test.cc:125-128 | Pointer equality of head and tail means exactly that there are no values. |
| HierarchicalMutex.NoDeadlock | thread/hieraarchical_mutex.cc:15-53 | In every reachable state, for any threads and mutexes, no walk of any length along "waits for the owner of" comes back to its start. |
| HierarchicalMutex.SomeoneCanMove | thread/hieraarchical_mutex.cc:32-53 | Behind every waiting thread there is one that holds a mutex and can take a step, be it only the unlock of its innermost mutex. |
| HierarchicalMutex.Root | thread/hieraarchical_mutex.cc:32-36 | The chain of owners a thread waits for ends, at a thread that waits for nobody. |
| HierarchicalMutex.WantedLevelFalls | thread/hieraarchical_mutex.cc:15-19 | Along each such edge the wanted level strictly falls. |
| HierarchicalMutex.LockOrderIsEnforced | thread/hieraarchical_mutex.cc:32-53 | A lock or try_lock is refused exactly when the mutex is not below everything the thread holds. |
| HierarchicalMutex.UnlockOrderIsEnforced | thread/hieraarchical_mutex.cc:38-44 | The unlock of a held mutex is accepted exactly when it is the innermost one. |
| HierarchicalMutex.LevelFollowsHeld | thread/hieraarchical_mutex.cc:21-24 | Between calls a thread is at the level of its innermost mutex, whatever the others did. |
| HierarchicalMutex.UnlockRestores | thread/hieraarchical_mutex.cc:38-44 | The saved value that `unlock` writes back is the level of the mutexes outside the released one. |
| HierarchicalMutex.OnlyOwnSteps | thread/hieraarchical_mutex.cc:13 | A thread's level, place and held mutexes change by its own steps only. |
| HierarchicalMutex.AnswersAreRight | thread/hieraarchical_mutex.cc:32-53 | In every reachable state a thread stands in the call it last began; one that returned true has left the mutex with the thread, innermost and at its level, or, an `unlock`, without it. |
| HierarchicalMutex.TryLockAnswers | thread/hieraarchical_mutex.cc:46-53 | In every reachable state a `try_lock` past its check answers at once: false exactly when another thread owns the mutex, and then nothing else changes; else the mutex is the thread's. |
| HierarchicalMutex.BlockedIff | thread/hieraarchical_mutex.cc:32-53 | In every reachable state a thread inside a call is held up exactly by `lock` of a mutex that another thread owns. |
| HierarchicalMutex.StepKeepsInv | thread/hieraarchical_mutex.cc:15-53 | Held levels strictly decrease, the saved values form the chain back, and owners match, after every step. |
| HierarchicalMutex.ReachableInv | thread/hieraarchical_mutex.cc:15-53 | The same in every reachable state. |
| BlockingQueue.NoLostWakeup | thread/BlockingQueue.cc:19-35 | In every run, spurious wake-ups included: while a consumer sleeps, the queue is no longer than the producers between push and notify plus the consumers woken and about to look; with neither, it is empty. |
| BlockingQueue.WakeupCanProceed | thread/BlockingQueue.cc:19-35 | A sleeper facing a non-empty queue always has a thread that owes the wake-up, or the lock's holder, able to step. |
| BlockingQueue.QueueIsFifo | thread/BlockingQueue.cc:19-35 | Taken followed by queued equals put, in order; a finished `take` has the value of its own place, which no other has. |
| BlockingQueueCalls.PutAsTold | thread/BlockingQueue.cc:19-25 | In every run, for every thread: the values it has put, followed by the one it has in hand, are those its calls of `put` were given, in order. |
| BlockingQueueCalls.ReturnedAsTaken | thread/BlockingQueue.cc:27-35 | In every run, for every thread: the values its calls of `take` returned, followed by the one it has popped and not returned, are those it popped, in order. |
| BlockingQueueCalls.AnswersFit | thread/BlockingQueue.cc:19-35 | In every run every thread stands in the call it last began, and a finished `take` has a value. |
| BlockingQueueCalls.BlockedIff | thread/BlockingQueue.cc:19-35 | Inside a call a thread is held up exactly by the taken lock or by sleep. |
| BlockingQueueCalls.NoDeadlock | thread/BlockingQueue.cc:19-35 | In every run, as long as some thread is inside a call and awake, some thread can step. |
| BlockingQueue.StepKeepsInv | thread/BlockingQueue.cc:19-35 | Every lock, access, wait, wake-up and notify keeps these, and `assert(!queue_.empty())` never fails. |
| BlockingQueue.RunKeepsInv | thread/BlockingQueue.cc:19-35 | The same over every schedule. |
| Buffer.RunIsPlain | reactor/Buffer.h:48-104 | Every run of append, prepend, retrieve, retrieveAll and readFd leaves readable what the same run leaves of a plain byte sequence. |
| Buffer.GrowthBound | reactor/Buffer.h:80-131 | Making room for `len` leaves the size or grows it to at most readable + 2 * len + 7, and grows only when sliding cannot help. |
| Buffer.CapacityBound | reactor/Buffer.h:80-131 | Over any run from a new buffer the size never passes max(1032, longest content + longest append + 7). |
| Buffer.CapacityBoundFrom | reactor/Buffer.h:80-131 | The same from any buffer within the bound. |
| Buffer.WithRoom | reactor/Buffer.h:80-85 | There is room afterwards, and the readable bytes are the same. |
| Buffer.SlidesOrGrows | reactor/Buffer.h:59-131 | Without room at the end, the bytes slide to the cheap prepend if that makes it, and otherwise stay while the vector grows by exactly what is missing; retrieving everything gives back the whole vector but the cheap prepend. |
| Buffer.Headroom | reactor/Buffer.h:80-131 | Over every run from a new buffer, sliding and growing included, prepends that together stay within the cheap eight bytes always fit. |
| Buffer.Received | reactor/Buffer.cc:11-30 | The delivered bytes, all of them, follow what was readable, spilled or not. |
| Buffer.Buffer.constructor | reactor/Buffer.h:16-24 | A new buffer is empty, 8 bytes prependable and 1024 writable. |
| Buffer.Buffer.Append | reactor/Buffer.h:74-78 | In memory, with growing or sliding as needed, the value is the old one with the bytes behind. |
| Buffer.Buffer.Prepend | reactor/Buffer.h:99-104 | The bytes go in front, within the prependable part. |
| Buffer.Buffer.Retrieve | reactor/Buffer.h:48-51 | The first bytes go. |
| Buffer.Buffer.RetrieveAll | reactor/Buffer.h:59-62 | All go, and the indices return to their start. |
| Buffer.Buffer.RetrieveAsString | reactor/Buffer.h:64-68 | What was readable is returned, and nothing stays. |
| Buffer.Buffer.HasWritten | reactor/Buffer.h:95-97 | Bytes already in place become readable. |
| Buffer.Buffer.EnsureWritableBytes | reactor/Buffer.h:80-85 | The array and the indices take the value `WithRoom` says. |
| Buffer.Buffer.MakeSpace | reactor/Buffer.h:118-131 | The same from the branch that needs it: `assert(kCheapPrepend < readerIndex_)` always holds, and the overlapping forward copy loses nothing. |
| Buffer.Buffer.ReadFd | reactor/Buffer.cc:11-30 | A failed read changes nothing and reports its errno; else exactly the bytes delivered are appended, through the extra area when they spill. |
| Buffer.Buffer.Fill | reactor/Buffer.cc:14-19 | The scatter read makes nothing readable yet and leaves what was readable intact. |
| Buffer.Buffer.Account | reactor/Buffer.cc:22-27 | The bookkeeping makes readable exactly what lies in place and, appended, what spilled over. |
| Buffer.CopyDown | reactor/Buffer.h:124-126 | A forward copy towards the front moves a region intact even when it overlaps itself. |
| Buffer.Scatter | reactor/Buffer.cc:15-19 | A scatter read fills the first piece before the second and changes nothing before the first. |
| Epoller.DispatchOrder | reactor/Channel.cc:55-80 | Close, error, read, write: the callbacks of an event run in this order, each at most once and for exactly its bits; a close always has a read behind it. |
| Epoller.Channel.EnableReading | reactor/Channel.cc:29-36 | Read interest is added, the channel is registered, and flags, map and kernel agree. |
| Epoller.Channel.EnableWriting | reactor/Channel.cc:38-42 | Write interest is on, read interest as it was, registered, all in agreement. |
| Epoller.Channel.DisableWriting | reactor/Channel.cc:49-53 | Only write interest is off; registration stays and all agree. |
| Epoller.Channel.DisableAll | reactor/Channel.h:38 | No interest is left, registration stays, all agree. |
| Epoller.Channel.InterestIsRegistered | reactor/Epoller.cc:61-62 | A channel that wants anything is registered. |
| Epoller.Epoller.constructor | reactor/Epoller.cc:13-22 | Nothing is registered anywhere. |
| Epoller.Epoller.UpdateChannelMap | reactor/Epoller.cc:107-116 | From records that agree but for one changed mask, the three records agree again. |
| Epoller.Epoller.EpollAdd | reactor/Epoller.cc:60-75 | The assertion holds, the add succeeds, and the channel is registered exactly if it wants something. |
| Epoller.Epoller.EpollMod | reactor/Epoller.cc:77-88 | The assertion holds, the change succeeds, and the kernel's mask is the channel's. |
| Epoller.Epoller.RemoveChannelMap | reactor/Epoller.cc:90-123 | The assertions hold, and the descriptor is in none of the records, also without the channel among the live ones. |
| Epoller.Epoller.FillActiveChannels | reactor/Epoller.cc:48-58 | Every descriptor the poll reports is found; its channel gets the ready bits, in order, and no other channel changes. |
| Connection.OutputInOrder | reactor/TcpConnection.cc:45-157 | For every run of sends, queued sends, shutdowns and partial writes on an open connection: wire followed by buffer is the messages in `sendInLoop` order, write interest is on exactly while bytes wait, and the direct write is never taken. |
| Connection.ApplyKeepsOrder | reactor/TcpConnection.cc:57-157 | Each such call keeps that. |
| Connection.AcceptedAsAsked | reactor/TcpConnection.cc:45-95 | For every connection and every run: what is accepted grows by exactly the messages, in call order, of the sends made while it is connected, up to the first shutdown, and of all queued sends; and a connected connection is disconnecting exactly after a shutdown. |
| Connection.WireOnlyGrows | reactor/TcpConnection.cc:57-157 | Over every run what has been written stays written. |
| Connection.WriteGetsOut | reactor/TcpConnection.cc:130-157 | A writable event with bytes waiting gets exactly what the write takes onto the wire, and it is the next of what was accepted. |
| Connection.CompletionIff | reactor/TcpConnection.cc:137-144 | On an open connection the write-complete callback is queued exactly by the call that empties a buffer that held something. |
| Connection.ShutdownAfterLastByte | reactor/TcpConnection.cc:45-147 | For every run of sends, queued sends, shutdowns and partial writes: the write side is shut down at most once, exactly when a shutdown was asked for and every accepted byte is written, if and only if every queued send brought nothing or still found the write side up. |
| Connection.FromEstablished | reactor/TcpConnection.cc:105-113 | From the moment a connection is established, over every such run: the wire is a prefix of what the calls sent, the buffer is exactly the rest, the connection is disconnecting exactly after a shutdown, and the half-close is right exactly if every queued send was in time. |
| Connection.ApplyKeepsHalfCloseIff | reactor/TcpConnection.cc:57-147 | Every call keeps the half-close, a queued send exactly if it brings nothing or finds the write side up. |
| Connection.RunKeepsOverdue | reactor/TcpConnection.cc:57-147 | Once a queued send was late nothing mends it: as long as its bytes wait the shutdown came too early, and when they are out it comes again. |
| Connection.NothingAfterShutdown | reactor/TcpConnection.cc:45-103 | After `shutdown`, over every run, nothing is accepted but what other threads had queued; if that is in time, then once the write side is down nothing more is accepted or written and it is shut down once. |
| Connection.OrderKeptIff | reactor/TcpConnection.cc:58-86 | A send keeps byte order for all messages and writes exactly when the direct write's guard is false. |
| Connection.CloseLetsAMessageOvertake | reactor/TcpConnection.cc:166-174 | A concrete connection whose `handleClose` lets the next message overtake bytes still waiting. |
| Connection.ShutdownCutsOffIff | reactor/TcpConnection.cc:88-103 | A shutdown with bytes waiting cuts them off exactly when that guard is true. |
| Connection.QueuedSendAfterShutdown | reactor/TcpConnection.cc:51-52 | A concrete late send that is still written and followed by a second shutdown. |
| TcpConnection.TcpConnection.constructor | reactor/TcpConnection.cc:15-38 | A new connection is connecting, unregistered and empty, with a level-triggered channel that wants nothing. |
| TcpConnection.TcpConnection.Send | reactor/TcpConnection.cc:45-55 | On the loop's thread the object takes the value `Connection.Send` says, and the epoll records agree. |
| TcpConnection.TcpConnection.SendInLoop | reactor/TcpConnection.cc:57-86 | The same for `sendInLoop`, for every message and every answer of the write. |
| TcpConnection.TcpConnection.DirectWrite | reactor/TcpConnection.cc:60-77 | The write happens only under its guard, and the completion is queued only for a whole message. |
| TcpConnection.TcpConnection.BufferRest | reactor/TcpConnection.cc:80-85 | What was not written waits in the buffer with write interest on. |
| TcpConnection.TcpConnection.Shutdown | reactor/TcpConnection.cc:88-95 | The object follows `Connection.Shutdown`. |
| TcpConnection.TcpConnection.ShutdownInLoop | reactor/TcpConnection.cc:97-103 | The write side goes down exactly if no write interest is on. |
| TcpConnection.TcpConnection.HandleWrite | reactor/TcpConnection.cc:130-157 | The object follows `Connection.HandleWrite` for every partial write, and the epoll records agree. |
| TcpConnection.TcpConnection.WriteOut | reactor/TcpConnection.cc:134-138 | What the socket took leaves the buffer, and nothing else. |
| TcpConnection.TcpConnection.Drained | reactor/TcpConnection.cc:139-147 | With the last byte out, interest goes off, the completion is queued, and a pending shutdown happens. |
| TcpConnection.TcpConnection.ConnectEstablished | reactor/TcpConnection.cc:105-113 | Connected, reading, registered, and UP is told. |
| TcpConnection.TcpConnection.HandleRead | reactor/TcpConnection.cc:115-128 | The input buffer gains exactly the bytes read; bytes are a message, none is the end, a failure changes nothing. |
| TcpConnection.TcpConnection.HandleClose | reactor/TcpConnection.cc:166-174 | Interest goes off with the channel still registered, and the close callback runs. |
| TcpConnection.TcpConnection.ConnectDestroyed | reactor/TcpConnection.cc:176-185 | Disconnected, DOWN is told, and the channel is in none of the epoll records. |
| Server.TcpServer.constructor | reactor/TcpServer.cc:18-29 | No connections; numbers start at one. |
| Server.TcpServer.NewConnection | reactor/TcpServer.cc:53-74 | In place: the map gains a new, established connection under a number never used before, and the epoll records agree with its channel among the live ones. |
| Server.TcpServer.RemoveConnectionInLoop | reactor/TcpServer.cc:81-93 | In place: exactly that entry goes and its `connectDestoryed` is deferred. |
| TcpServer.ConnectionLifecycle | reactor/TcpServer.cc:53-93 | In every run, other threads queueing functions and sends at any moment, that handles no event of the kind `EventFailsIff` names and runs no queued send that brings something to a destroyed connection: no assertion fails, each application trace is a prefix of UP, messages, DOWN, each close is handled at most once, and DOWN follows it. |
| TcpServer.OutputInOrderInMap | reactor/TcpConnection.cc:57-157 | In every such run every connection in the map has its output in order, so the direct write is unreachable on the whole server; and its half-close is right exactly if no queued send was late for it. |
| TcpServer.EventFailsIff | reactor/Channel.cc:55-80 | An event of an open connection fails an assertion if and only if a hang-up comes without readability and the read then finds the end. |
| TcpServer.RudeEventFailsFrom | reactor/Channel.cc:58-72 | Whenever a connection is open at a poll, that event can come and fails. |
| TcpServer.RudeEventFails | reactor/Channel.cc:58-72 | A run from the start that ends in it. |
| TcpServer.LateSendRevivesIff | reactor/TcpConnection.cc:80-85 | On a destroyed connection a queued send leaves the channel out of the poller, whatever the write answers, exactly if it brings nothing. |
| TcpServer.LateSendRevives | reactor/TcpConnection.cc:51-52 | Whenever a connection is open at a poll with nothing pending, a close and a send queued behind it lead to a poll with the destroyed connection registered. |
| TcpServer.QueuedOk | reactor/TcpConnection.cc:57-86 | A queued send to a connection not yet destroyed keeps its life and its output order, and makes its half-close wrong exactly if it is late. |
| TcpServer.CallbacksKeep | reactor/Channel.cc:58-78 | For any list of callbacks: they fail exactly when they close the connection more often than it can be closed. |
| TcpServer.UnregisteredBeforePoll | reactor/EventLoop.cc:71-78 | In every such run, at each poll exactly the connections in the map are registered and listening; a closed one is destroyed and has been told DOWN. |
| TcpServer.ReachableIsOwned | reactor/TcpServer.cc:76-93 | In every such run a ready channel's connection is in the map; a registered one is in the map or held by the single deferred call owed to it, never both. |
| TcpServer.StepKeepsInv | reactor/TcpServer.cc:53-93 | Every phase of the loop keeps the life of every connection consistent with the map and the deferred calls. |
| TcpServer.RunKeepsInv | reactor/EventLoop.cc:71-78 | The same over every such schedule. |
| TcpServer.AcceptKeeps | reactor/TcpServer.cc:53-74 | Accepting never fails, and the new connection is in the map, open and told UP. |
| TcpServer.CloseKeeps | reactor/TcpServer.cc:81-93 | The erase removes one entry exactly if the connection is still in the map. |
| TcpServer.DestroyKeeps | reactor/TcpConnection.cc:176-185 | The deferred `connectDestoryed` always finds its connection, in a state it asserts. |
| TcpServerCalls.EventOutcome | reactor/Channel.cc:55-80 | What an event of an open connection does, seen from every connection: its own is closed, told and written, in this order, with what the application does in return; the others see only what the application does; the map loses it exactly if it closes, and `connectDestoryed` is then deferred before what the application defers. |
| TcpServerCalls.EventTells | reactor/TcpConnection.cc:115-157 | So the application is told of a message exactly if there is one, what it sends in return is accepted, and a writable event gets out what the write takes. |
| TcpServerCalls.HandlerOutcome | reactor/TcpServer.cc:53-74 | An accept adds one connection, told UP, and then, as for any other handler, every connection sees exactly what the application does to it. |
| TcpServerCalls.TaskOutcome | reactor/EventLoop.cc:178-190 | A deferred function does what it was queued to do, a queued send sends, and `connectDestoryed` tells DOWN and takes the connection out of the poller; no other connection sees it. |
| TcpServerCalls.CallsServe | reactor/TcpConnection.cc:45-95 | What an application does is, for each connection, its sends and shutdowns in order and, for the loop, the functions it defers in order. |
| TcpServerCalls.DeferredRunInOrder | reactor/EventLoop.cc:94-103 | In every run that `ConnectionLifecycle` covers, the calls that ran, the rest of the batch and those pending are those deferred by closes, by the application and by other threads, in order. |
| EventLoop.RunOnceInOrder | reactor/EventLoop.cc:94-103 | In every run, any threads queueing: executed, rest of the batch and pending are the functions queued, in order, and each runs in exactly the first batch taken after it was queued. |
| EventLoop.QueuedAsAsked | reactor/EventLoop.cc:94-103 | In every run the functions executed, then the rest of the batch, then those pending, are those that the schedule's calls of `queueInLoop` asked for, in order, each marked by who called. |
| EventLoop.LoopEnqueueWakesPoll | reactor/EventLoop.cc:71-103 | In every run, at every entry to the poll: if any call of `queueInLoop` that the schedule made on the loop's own thread has not been served, the wake-up counter is non-zero. |
| EventLoop.ForeignWakesIff | reactor/EventLoop.cc:100-102 | A foreign thread wakes the loop exactly when it finds it between the start and the end of `doPendingFunctions`. |
| EventLoop.ForeignEnqueueMayWait | reactor/EventLoop.cc:100-102 | A concrete run that polls with a foreign function pending and nothing to end the poll. |
| EventLoop.CounterIsWrites | reactor/EventLoop.cc:123-176 | In every run the counter is the number of wake-ups written since it was last read. |
| EventLoop.NobodyStuck | reactor/EventLoop.cc:66-103 | In every run the loop can go on without anything more being queued, and so can a foreign thread inside `queueInLoop`. |
| EventLoop.StepKeepsInv | reactor/EventLoop.cc:66-103 | Every step of the loop and of foreign threads keeps order, batch numbers and wake-ups. |
| EventLoop.RunKeepsInv | reactor/EventLoop.cc:66-103 | The same over every schedule. |
| EventLoop.EventLoop.QueueInLoop | reactor/EventLoop.cc:94-103 | The function goes last, with a wake-up on the loop's thread or during a batch. |
| EventLoop.EventLoop.DoPendingFunctions | reactor/EventLoop.cc:178-190 | Exactly the functions pending at the swap run, in order; what they queue is left pending, with one wake-up each. |
| TimerQueue.TimeSpecExact | reactor/TimerQueue.cc:21-31 | The seconds/nanoseconds pair is normalised and worth exactly max(when - now, 100) microseconds. |
| TimerQueue.ArmedExact | reactor/TimerQueue.cc:42-52 | Arming gives the deadline max(expiration, arming time + 100 microseconds). |
| TimerQueue.InsertSorted | reactor/TimerQueue.cc:142-155 | Insertion adds one element, keeps the order, and the front changes exactly if the new one precedes it. |
| TimerQueue.DueExact | reactor/TimerQueue.cc:129-140 | What is cut from the front is exactly what has expired. |
| TimerQueue.BatchExact | reactor/TimerQueue.cc:129-140 | A timer is in the batch exactly when it is due, and the batch is in expiration order. |
| TimerQueue.HandleReadEffect | reactor/TimerQueue.cc:91-127 | One `handleRead`, callbacks adding timers included, runs what is due, once each, in order; one-shot ones are gone, repeating ones put forward from now, and the others that were there untouched. |
| TimerQueue.CallbackTimer | reactor/TimerQueue.cc:75-105 | Every timer that a callback adds is in the queue when that `handleRead` returns, with the expiration asked for and under a new number, neither run nor freed, however early it expires. |
| TimerQueue.HandleReadTimer | reactor/TimerQueue.cc:91-127 | The same seen from one timer: runs, releases and next expiration. |
| TimerQueue.OneShotRunsOnce | reactor/TimerQueue.cc:91-140 | The same of a one-shot timer in the queue at any point of its life. |
| TimerQueue.RepeatsAreSpaced | reactor/Timer.cc:5-12 | The same of a repeating timer at any point of its life. |
| TimerQueue.AddedTimer | reactor/TimerQueue.cc:75-89 | Every timer just added, between handlers or in the middle of a batch, has the expiration asked for and has neither run nor been freed. |
| TimerQueue.OneShotLife | reactor/TimerQueue.cc:75-140 | From either insertion on, over every run: a one-shot timer's runs are exactly the first `handleRead` begun afterwards at or past its expiration, and it is freed then, once. |
| TimerQueue.RepeatingLife | reactor/Timer.cc:5-12 | From either insertion on, over every run: a repeating timer stays, is never freed, and its runs are at least its interval apart. |
| TimerQueue.AlwaysArmed | reactor/TimerQueue.cc:82-127 | Over every run, between handlers, a waiting timer means the descriptor is armed, or expired and unread, for exactly max(earliest expiration, arming time + 100 microseconds). |
| TimerQueue.HandleReadRearms | reactor/TimerQueue.cc:91-127 | After a `handleRead`, whatever its callbacks added: with timers waiting the descriptor has been armed again for exactly that; with none it has been read if it had expired, and is as it was if not. |
| TimerQueue.RunKeeps | reactor/TimerQueue.cc:82-155 | Over every run no assertion fails and no freed timer is followed. |
| TimerQueue.TimerQueue.constructor | reactor/TimerQueue.cc:59-66 | An empty queue with the descriptor not armed. |
| TimerQueue.TimerQueue.AddTimerInLoop | reactor/TimerQueue.cc:82-89 | The object follows `AddTimer` wherever that does not fail, also from inside a batch. |
| TimerQueue.TimerQueue.InsertTimer | reactor/TimerQueue.cc:142-155 | The entry goes to its place, and the answer tells whether the earliest expiration changed. |
| TimerQueue.TimerQueue.GetExpiration | reactor/TimerQueue.cc:129-140 | The loop with the sentry cuts exactly the due entries, and its assertion holds. |
| TimerQueue.TimerQueue.RunBatch | reactor/TimerQueue.cc:98-102 | The loop over the batch follows `RunFirst`, whatever the callbacks add. |
| TimerQueue.TimerQueue.Reset | reactor/TimerQueue.cc:107-127 | Repeating timers return, the others are freed, and the descriptor is armed for the new front. |
| TimerQueue.TimerQueue.HandleRead | reactor/TimerQueue.cc:91-105 | The object follows the function the run theorems are about. |
| ConnectorSteps.SocketsAccounted | reactor/Connector.cc:32-188 | In every run, with errors and writability in one event and `stop` at any moment: no assertion fails, and every socket made is exactly one of held by the connecting channel, closed once, handed over once. |
| ConnectorSteps.RetriesBackOff | reactor/Connector.cc:171-188 | In every run the delays since the last restart are min(500 * 2^i, 30000) milliseconds; at most one retry is pending, only while disconnected. |
| ConnectorSteps.BackoffExact | reactor/Connector.cc:182 | Doubling with a cap is that closed form. |
| ConnectorSteps.ErrorThenWrite | reactor/Connector.cc:122-169 | In one event the error is handled first and the write callback then does nothing. |
| ConnectorSteps.EventOutcome | reactor/Connector.cc:110-188 | One event hands the socket over exactly if it came up well and is wanted, sets a retry exactly if it failed and is wanted, else closes or keeps it, and touches no other socket. |
| ConnectorSteps.AttemptOutcome | reactor/Connector.cc:37-85 | One attempt of a disconnected connector: under way its socket is held by a registered channel; refused for now it is closed once and a retry is set after the next delay; refused for good it is closed once and that is all; unwanted, nothing happens. |
| ConnectorSteps.RestartStartsOver | reactor/Connector.cc:87-93 | A restart wants to connect again and attempts it, and forgets the delays so far: a refusal waits half a second. |
| ConnectorSteps.StopStops | reactor/Connector.cc:95-97 | After a `stop`, over every run until the next start: no socket is made, none is handed over, no retry is set. |
| ConnectorSteps.WantedIsPursued | reactor/Connector.cc:37-188 | In every run without a refusal for good: as long as a connection is wanted it is being attempted, is up, or has a retry set. |
| ConnectorSteps.RestartFailsIff | reactor/Connector.cc:87-102 | In every state a run can reach, a restart can fail the no-channel assertion exactly while an attempt is under way or the queued reset has not run, and a retry timer exactly in the second case. |
| ConnectorSteps.TooSoonFails | reactor/Connector.cc:87-120 | Whenever a socket becomes writable both happen: a restart, and a retry timer, in the iteration of that event fail. |
| ConnectorSteps.BecomesWritable | reactor/Connector.cc:32-108 | A run from the start gets to such an event. |
| ConnectorSteps.StepKeepsInv | reactor/Connector.cc:37-188 | Each step keeps channel, pending reset, pending retry, state and every socket's fate consistent. |
| ConnectorSteps.RunKeepsInv | reactor/Connector.cc:37-188 | The same over every schedule. |
| Connector.Connector.constructor | reactor/Connector.cc:17-25 | Disconnected, no channel, the first delay. |
| Connector.Connector.Start | reactor/Connector.cc:32-35 | The object follows the function of that name, and the epoll records agree with its channel, if it has one, among the live ones. |
| Connector.Connector.StartInLoop | reactor/Connector.cc:37-45 | The same, under the assertions it makes. |
| Connector.Connector.Connect | reactor/Connector.cc:47-85 | A socket is made and, by the kernel's answer, held, retried or closed. |
| Connector.Connector.Restart | reactor/Connector.cc:87-93 | The delay and the state start over and a connect follows. |
| Connector.Connector.Connecting | reactor/Connector.cc:99-108 | The socket is in a new channel that is registered for writing in all epoll records. |
| Connector.Connector.RemoveAndResetChannel | reactor/Connector.cc:110-116 | The channel leaves every epoll record at once, its object by one queued call. |
| Connector.Connector.ResetChannel | reactor/Connector.cc:118-120 | The channel object goes, and the epoll records agree without it. |
| Connector.Connector.HandleWrite | reactor/Connector.cc:122-158 | The socket is handed over, closed or retried, by its error, by self-connection and by `stop`; the channel is out of the epoll records. |
| Connector.Connector.HandleError | reactor/Connector.cc:160-169 | The socket is closed and retried. |
| Connector.Connector.Retry | reactor/Connector.cc:171-188 | Closed; a retry only if still wanted, with the next delay doubled up to the cap. |
| Numerals.DecimalRoundTrip | logging/LoggingStream.cc:21-39 | Every signed or unsigned 64-bit value, the minimum included, is parsed back from its decimal form, which has no leading zero and at most 20 characters. |
| Numerals.HexRoundTrip | logging/LoggingStream.cc:41-53 | Every 64-bit address is parsed back from at most 16 hexadecimal digits without leading zero. |
| Numerals.ParseNumeral | logging/LoggingStream.cc:21-53 | Parsing a numeral of any size gives the number back. |
| Numerals.LowDigitsAreNumeral | logging/LoggingStream.cc:25-29 | The remainders of truncating division, looked up in the centred table, are the numeral's digits backwards, for negative numbers too. |
| Numerals.LowHexDigitsAreNumeral | logging/LoggingStream.cc:44-48 | The same in base 16. |
| Numerals.ConvertedIsDecimal | logging/LoggingStream.cc:31-37 | Digits, sign and reversal give the decimal form. |
| LoggingStream.ReverseStretch | logging/LoggingStream.cc:36-37 | Reversal in place touches nothing outside the stretch. |
| LoggingStream.WriteDigits | logging/LoggingStream.cc:25-29 | The loop writes those digits behind what was there. |
| LoggingStream.Convert | logging/LoggingStream.cc:21-39 | The decimal form is written at the position given, its length returned, what was before untouched. |
| LoggingStream.WriteHexDigits | logging/LoggingStream.cc:44-48 | The loop in base 16. |
| LoggingStream.ConvertHex | logging/LoggingStream.cc:41-53 | The same for hexadecimal. |
| LoggingStream.WritePointer | logging/LoggingStream.cc:102-107 | `0x` and the digits of the address. |
| LoggingStream.InsertedLeavesRoom | logging/LoggingStream.h:20-31 | After any insertion a byte is still free, and no number needs the 32 bytes asked for it. |
| LoggingStream.WholePiecesInOrder | logging/LoggingStream.cc:55-110 | After any run of insertions the buffer holds some of the pieces, each whole, in order, and at least one byte is free. |
| LoggingStream.AllKeptIff | logging/LoggingStream.cc:55-110 | A run of insertions keeps every piece if and only if each finds free, behind those before it, a byte more than its length or, a number, 32 bytes. |
| LoggingStream.NothingDropped | logging/LoggingStream.cc:55-110 | With room for everything and 32 bytes more, the buffer is the old text followed by all the pieces. |
| LoggingStream.FixedBuffer.constructor | logging/LoggingStream.h:17-19 | An empty buffer of the given size. |
| LoggingStream.FixedBuffer.Append | logging/LoggingStream.h:20-26 | Wholly appended if more than its length is free, else nothing changes. |
| LoggingStream.FixedBuffer.Add | logging/LoggingStream.h:27-29 | What was written in place becomes text. |
| LoggingStream.LoggingStream.FormatInteger | logging/LoggingStream.cc:55-61 | In memory a number is wholly present or wholly absent. |
| LoggingStream.LoggingStream.InsertPointer | logging/LoggingStream.cc:99-110 | The same for a pointer. |
| LoggingStream.LoggingStream.InsertText | logging/LoggingStream.h:89-103 | The same for text. |
| LoggingStream.LoggingStream.Insert | logging/LoggingStream.h:66-110 | Each operator does what the run theorem's function says and leaves a byte free. |
| SharedPtrSteps.CountsAndFrees | thread/test/shared_ptr_test.cc:34-76 | In every program nothing dangling is followed, each count is the number of live handles to its object, and an object and its counter have been freed, once, exactly when no handle is left. |
| SharedPtrSteps.NoLeak | thread/test/shared_ptr_test.cc:43-72 | A program that leaves no handle has freed every object and counter once. |
| SharedPtrSteps.AssignIsDestroyThenCopy | thread/test/shared_ptr_test.cc:56-64 | Assignment is destruction followed by copy construction, also between handles that already share. |
| SharedPtrSteps.AssignFailsIff | thread/test/shared_ptr_test.cc:56-64 | An assignment goes wrong exactly when its source is another handle and null. |
| SharedPtrSteps.NullAssignFails | thread/test/shared_ptr_test.cc:34-61 | Whenever a handle lives, and so in the shortest program, a null handle can be made and the assignment from it goes wrong. |
| SharedPtrSteps.ConstructKeepsIff | thread/test/shared_ptr_test.cc:34-41 | Wrapping a raw pointer keeps the bookkeeping right exactly when no handle was made from it before. |
| SharedPtrSteps.WrappedTwiceFreedTwice | thread/test/shared_ptr_test.cc:34-72 | A concrete object wrapped twice is freed twice. |
| SharedPtrSteps.CopyKeeps | thread/test/shared_ptr_test.cc:47-54 | A copy never fails and keeps every count equal to its live handles. |
| SharedPtrSteps.DestroyKeeps | thread/test/shared_ptr_test.cc:43-72 | So does a destruction, which frees exactly if it was the last. |
| SharedPtrSteps.AssignKeeps | thread/test/shared_ptr_test.cc:56-64 | So does an assignment from a handle that is not null, for both objects. |
| SharedPtrSteps.RunKeepsInv | thread/test/shared_ptr_test.cc:34-76 | The same over every program. |
| SharedPtr.SharedPtr.constructor | thread/test/shared_ptr_test.cc:34-41 | On the heap, a handle with a fresh counter at one. |
| SharedPtr.SharedPtr.Null | thread/test/shared_ptr_test.cc:34-37 | A null handle has no counter. |
| SharedPtr.SharedPtr.Copy | thread/test/shared_ptr_test.cc:47-54 | The heap follows the function of that name for all live handles, objects and counters. |
| SharedPtr.SharedPtr.Release | thread/test/shared_ptr_test.cc:66-72 | The same for `Release`. |
| SharedPtr.SharedPtr.Last | thread/test/shared_ptr_test.cc:68-70 | The last handle deletes object and counter and forgets both. |
| SharedPtr.SharedPtr.Destroy | thread/test/shared_ptr_test.cc:43-45 | The same for the destructor, over the handles that remain. |
| SharedPtr.SharedPtr.Share | thread/test/shared_ptr_test.cc:59-61 | The handle shares the other's object, with one more on the counter. |
| SharedPtr.SharedPtr.Assign | thread/test/shared_ptr_test.cc:56-64 | The heap follows `Assign` wherever that does not fail. |

## Left out

- Interleaved code as methods: a Dafny method is atomic, so `threadsafe_queue_version_2`, `hierarchical_mutex`, `BlockingQueue`, and the server side of a connection's life are state machines on values; `LinkedQueue` has the queue's list in place and `Server` the map of connections, and nothing has the mutex or the blocking queue in place.
- Real sockets, epoll, eventfd, timerfd, clocks, pthreads and the allocator: environments, as described above. System calls that fail for other reasons than the ones modelled are left out; `epoll_ctl` succeeds exactly when the descriptor's presence allows the operation.
- Machine integers: sizes, indices, times and counters are unbounded; only the 64-bit range of printed values and the sentry address are explicit.
- Wake-up liveness of `threadsafe_queue_version_2`: `push` notifies without the head mutex that the waiters use, so only safety is claimed; a waiting pop may retry at any time.
- The private `try_pop_head(T &)`, which has no caller, and the state of a moved-from payload.
- Freed payloads of queues: values are integers, shared ownership of payload data is not modelled there.
- `Buffer::shrink`, which does not reset the indices and has no callers, `swap` and `retrieveUntil`.
- Event masks as bit patterns: a mask is the set of its bits.
- Sends after `handleClose` keep no order, as `Connection.CloseLetsAMessageOvertake` shows; the order theorems are about open connections. `shutdown` called from another thread, whose `shutdownInLoop` is queued; queued sends are covered.
- TcpServer.ConnectionLifecycle: it, and the other theorems over server runs, exclude the event that `TcpServer.EventFailsIff` names and the queued send that `TcpServer.LateSendRevivesIff` names, and nothing else; a handle to a destroyed connection is kept alive by whoever queued a send on it.
- `runInLoop` and `quit`; the write-complete callbacks are counted, not run.
- Servers with several loops: `newConnection` calls `connectEstablished` from the base loop.
- Connection names: the number in the name stands for the name.
- What an application does in a callback is any list of sends, shutdowns and deferred functions, which may do the same; destroying handles to connections is not modelled.
- Two clocks: the timer descriptor and the timestamps read one clock; timer intervals are whole microseconds.
- `TimerQueue`'s destructor, and timers added from other threads before they reach the loop.
- ConnectorSteps.SocketsAccounted: it assumes one `start`, a `restart` only once connected and with the queued reset done, and a retry timer that fires in a later iteration; `ConnectorSteps.RestartFailsIff` says why.
- `Connector::start` called again while a retry is pending, which the source marks unsafe; its destructor; the failed-errno groups are three kinds of answer.
- Doubles, `Fmt`, text of 2 GB or more, and `operator<<` of `unsigned long long`, which is declared and not defined.
- Log files, the logger, `InetAddress`, `Socketops`, `Acceptor`, thread pools, `threadsafe_stack`, `threadsafe_lookup_table` and the first two queues of thread/threadsafe_queue.cc: input and output, library calls or simple wrappers. The queue in thread/threadsafe_queue.cc:129-240 lacks a member and misnames others; the complete copy in thread/threadsafe_queue_test.cc is the one modelled.

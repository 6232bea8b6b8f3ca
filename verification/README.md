# A Dafny model of moe_net

moe_net is a reactor library: one thread per event loop, channels registered with epoll, buffered
TCP connections, timers on a timerfd, a thread pool, and a small HTTP server on top. This project
models the parts of it that carry state across calls and proves what those parts keep over every
run.

Every stateful part comes in two layers. A datatype and a `Next` function say what one step does
to the component's state, `Legal` says when the step can happen, and lemmas prove invariants of
all runs (`LegalRun`, `Run`). A class with the source's fields performs the same operations by
updating its fields or its array, and each of its methods is proved to move `View()`, the value of
the fields, exactly as the step function does. The kernel's answers (bytes accepted, bytes
delivered, event masks, which sleeper is woken, the time) are parameters and range over all
possibilities.

| file | what it models |
|---|---|
| `RingBuffer.dfy` | the byte buffer: an array and two cursors, compaction, growth, scatter read; refines a byte queue |
| `LogStream.dfy` | integer printing into a fixed buffer, and reading the text back |
| `HttpRequest.dfy`, `HttpContext.dfy`, `HttpServer.dfy` | the request, the parsing loop, the printer that inverts it, and the callback that parses chunk after chunk |
| `ThreadPool.dfy` | the bounded queue as a monitor with two condition variables, any number of threads, spurious wake-ups |
| `EventLoop.dfy` | posting tasks and the eventfd wake-up, interleaved with the loop step by step |
| `EpollPoller.dfy`, `PollerRuns.dfy` | channels, dispatch order, the poller's map against the kernel's interest set |
| `TcpConnection.dfy` | one connection: partial writes, buffered output, write interest, half-close, closing |
| `TimerQueue.dfy` | the two timer indexes, deferred cancellation, the timerfd, callbacks that change the queue |
| `Connector.dfy` | connecting and reconnecting: who owns each descriptor, the deferred reset |
| `Common.dfy` | shared vocabulary |

## What is assumed

- A mutex makes its critical section atomic; `notify` wakes at least one sleeper when there is
  one, and sleepers may wake for no reason.
- TimerQueue: an inserted expiration is not already a key of `mc_timers`, which is keyed by the
  time stamp alone (net/TimerQueue.h:35); `ReaddKeepsIndexIff` and `TwoTimersCollide` show that
  the assumption is exact. `mb_handling` starts false, although the constructor does not set it.
  The wall clock and the timerfd's clock are one clock that does not run backwards.
- TcpConnection: calls are made on the loop thread, where `add_task` runs its argument at once
  (net/EventLoop.cc:191-193). `m_fd`, which is never assigned, is read as the channel's
  descriptor. Payloads hold no NUL, because `String::size` is `strlen` (base/String.h:59-62). The
  high-water callback does not use the connection.
- RingBuffer: the initial size is at least 64, the only sizes for which a new buffer is in shape.
  `std::copy` onto an overlapping range acts as memmove.
- EventLoop: runs start at the entry of `loop()`. `m_handle_tasks` may hold anything there.
- Connector: one `start`, no `stop` or `restart`, and dispatching the events of one iteration of
  the loop takes no longer than the retry delay.

## Where the code differs from its documentation or from what one would expect

- RingBuffer: `re_ring` computes with unsigned numbers. After `prepend` has used up the 64-byte
  header the difference wraps, the buffer is compacted instead of grown, and the copy overruns the
  array (`ReRingMakesRoom`, `PrependThenAppendOverruns`).
- HttpContext: entered in `e_parse_body` or `e_parse_over`, the parsing loop never ends
  (`ParseTerminatesIff`); the server never enters it there (`ServedKeepsEntry`).
- HttpContext: the query of an earlier line survives a line without `?`, so reprinting needs a
  request without a stale query (`LineReprints`); a rejected line leaves one
  (`StaleQueryIsReachable`).
- HttpRequest: `header` means to drop trailing spaces too, but looks at the CR, so they stay
  (`HeaderValueAtCr`).
- HttpServer: the buffer is cleared after every chunk, so a request split inside its first line
  is lost (`PartialLineIsLost`, `SplitRequest`), and one split inside its headers is answered on
  the first half of them; if that answer does not close, the rest is taken for a request of its own
  (`SplitInHeaders`). `SplitHarmlessIff` says exactly which splits change the replies.
- HttpServer: after a 400 or a closing answer the connection goes on parsing what arrives, but
  nothing more is sent, because `send` acts only on a connected connection (`ServerRun`,
  `RepliesReachTheConnection`).
- TcpConnection: a failing direct write drops the whole message, also when the socket is merely
  full (`MessageTakenIff`). In `handle_write` the write-complete notification binds the data
  member instead of calling it, so the callback runs exactly after a direct write that took the
  whole message (`NotifiedIff`, `OnlySendNotifies`), never for a message that was buffered
  (`BufferedNeverNotified`).
- TcpConnection: `connect_destroy` on a half-closed connection trips the assertion of
  `Channel::remove` (`DestroyBreaksIff`); POLLHUP without POLLIN runs the close and the read
  callback, and trips one when the read finds the end of the stream (`DispatchBreaksIff`). Every
  new connection can come to either (`FailuresAreReachable`).
- TimerQueue: the interval is an `int`, so a repeating timer whose delay is a multiple of 2^32
  seconds runs once and is deleted (`RepeatsIff`). `mc_timers_will_del` is never cleared; a
  repeating timer is marked from the start exactly if its id was cancelled, while callbacks ran,
  before the timer was added (`HarmIff`), and then runs only once (`RepeatsIff`,
  `UnbornMarkStopsRepeating`).
- EventLoop: tasks posted on the loop thread before `loop()` are not followed by a wake-up
  (`EntryConditionIsExact`).
- ThreadPool: workers whose tasks post into their own full pool can all block there
  (`WorkersCanBlockThemselves`), and then no run takes a task again (`SelfBlockedForever`). Every
  other started pool with work queued can take one by its workers alone, without a spurious
  wake-up (`CanTakeIff`).
- Connector: net/Connector.h:23-24 describes a delay in milliseconds that grows with each attempt;
  the code passes the constant 30000 to `add_timer`, which counts seconds (`DelayIsConstant`).

## Model

| member | source | states |
|---|---|---|
| RingBuffers.NextRefines | net/RingBuffer.h:65-138 | each buffer operation changes the readable bytes as it changes a plain byte queue |
| RingBuffers.RunRefinesQueue | net/RingBuffer.h:65-138 | so does every sequence of operations, across compaction, growth and both segments of the scatter read |
| RingBuffers.GrowthBound | net/RingBuffer.h:189-203 | an append that grows the buffer gives one smaller than 64 + readable + 2 * appended |
| RingBuffers.NextBound | net/RingBuffer.h:104-138 | without prepend, the read cursor stays at or above 64 and one step keeps the capacity within the old one or 63 + 2 * contents |
| RingBuffers.SpaceBound | net/RingBuffer.h:104-138 | over runs without prepend, capacity never exceeds the larger of the initial size and 63 + 2 * peak contents |
| RingBuffers.NoPrependIsSafe | net/RingBuffer.h:104-132 | after any run without prepend an append of any length is safe |
| RingBuffers.DrainedIsNew | net/RingBuffer.h:65-88 | a buffer whose bytes are all skipped is like a new one of its size |
| RingBuffers.SkipUndoesPrepend | net/RingBuffer.h:65-124 | skipping what was prepended gives back the buffer, and prepending takes no room at the end |
| RingBuffers.RoomIsEnough | net/RingBuffer.h:65-133 | an append that finds room and a skip that leaves bytes move nothing |
| RingBuffers.ReadIsOffered | net/RingBuffer.cc:11-21 | one read is offered at least 64 KiB, more exactly when more is free |
| RingBuffers.ReRingMakesRoom | net/RingBuffer.h:189-203 | re_ring makes room if and only if 64 bytes are free outside the readable part |
| RingBuffers.PrependThenAppendOverruns | net/RingBuffer.h:119-124 | a reachable buffer on which the unsigned difference wraps and an append overruns |
| RingBuffers.CrlfFrom | net/RingBuffer.h:155-160 | the position is that of a CRLF and no earlier position is; none if there is none |
| RingBuffers.RingBuffer.constructor | net/RingBuffer.h:24-27 | a new buffer has its cursors inside the array if and only if its size is at least 64, and is then empty |
| RingBuffers.RingBuffer.ReadSkip | net/RingBuffer.h:65-76 | drops exactly the given number of bytes, moving both cursors back when none is left |
| RingBuffers.RingBuffer.ReadSkipAll | net/RingBuffer.h:84-88 | drops all readable bytes |
| RingBuffers.RingBuffer.ToString | net/RingBuffer.h:96-102 | returns the first bytes and removes them |
| RingBuffers.RingBuffer.ReadAllAsString | net/RingBuffer.h:169-174 | returns all readable bytes and removes them |
| RingBuffers.RingBuffer.ReRing | net/RingBuffer.h:189-203 | grows or compacts in place and keeps the readable bytes |
| RingBuffers.RingBuffer.EnsureWrite | net/RingBuffer.h:126-133 | afterwards the asked-for room is free and the readable bytes are the same |
| RingBuffers.RingBuffer.Append | net/RingBuffer.h:104-109 | the array's readable part is the old one followed by the new bytes |
| RingBuffers.RingBuffer.Prepend | net/RingBuffer.h:119-124 | the array's readable part is the new bytes followed by the old one |
| RingBuffers.RingBuffer.ReadFromFd | net/RingBuffer.cc:8-36 | delivered bytes are appended through both segments; an error changes nothing |
| RingBuffers.RingBuffer.FindCrlf | net/RingBuffer.h:155-160 | the search finds the first CRLF of the readable bytes, or none |
| Logging.DigitsRoundTrip | base/LogStream.cc:14-35 | digits are digits, read back as the number, and have no leading zero |
| Logging.NumeralRoundTrip | base/LogStream.cc:14-35 | a numeral without leading zero is the digits of its value |
| Logging.PrintThenParse | base/LogStream.cc:14-35 | the printed text is canonical and reads back as the number |
| Logging.ParseThenPrint | base/LogStream.cc:14-35 | every canonical text is what its value prints |
| Logging.DecimalFits | base/LogStream.cc:63-68 | every value of every supported width prints in 1 to 20 characters |
| Logging.EveryIntegerPrints | base/LogStream.cc:63-73 | every signed or unsigned 64-bit integer has a supported type and prints in 1 to 20 characters |
| Logging.SupportedTypes | base/LogStream.h:110-116 | the ranges of the integer types that are printed |
| Logging.TailDigit | base/LogStream.cc:10-23 | a remainder of either sign selects the digit of the magnitude in the mirrored table, and the truncated quotient's magnitude is the magnitude's quotient |
| Logging.EmitDigits | base/LogStream.cc:17-25 | the loop writes the digits of the magnitude in reverse, every quotient inside the width, nothing else changed |
| Logging.ReverseRange | base/LogStream.cc:33 | reverses the range in place and leaves the rest of the array alone |
| Logging.Num10ToStr | base/LogStream.cc:14-35 | the decimal text and a terminator are in the buffer, at most 21 bytes written |
| Logging.LogStream.AppendNum | base/LogStream.cc:65-73 | the stream's text grows by the whole number, or not at all when 32 bytes or fewer are free |
| HttpRequests.MethodRoundTrip | net/http/HttpRequest.h:50-106 | recognising a method's text and naming the method undo each other, and no other text is recognised |
| HttpRequests.KnownMethods | net/http/HttpRequest.h:50-80 | exactly GET, POST, HEAD, PUT and DELETE are recognised |
| HttpRequests.TrimLeftExact | net/http/HttpRequest.h:134-139 | all leading spaces are dropped and nothing else |
| HttpRequests.HeaderValueAtCr | net/http/HttpRequest.h:128-147 | on the parser's call, leading spaces of a value are dropped and trailing ones stay |
| HttpRequests.HttpRequest.SetMethod | net/http/HttpRequest.h:50-80 | only the method changes; the result says whether the text is known |
| HttpRequests.HttpRequest.Header | net/http/HttpRequest.h:128-147 | the name's entry becomes the trimmed value and no other field changes |
| HttpRequests.HttpRequest.Swap | net/http/HttpRequest.h:155-164 | two requests exchange all their fields, receive time included, also a request with itself |
| HttpContexts.PassProgress | net/http/HttpContext.cc:17-78 | each pass stops or consumes at least two bytes and stays in a live state |
| HttpContexts.ParseIsIterated | net/http/HttpContext.cc:17-78 | the recursive parse is the loop iterated a finite number of times |
| HttpContexts.DeadStateSpins | net/http/HttpContext.cc:75-77 | in the body or over state no number of passes changes anything |
| HttpContexts.ParseTerminatesIff | net/http/HttpContext.cc:11-81 | the loop ends if and only if it is entered in the request-line or header state |
| HttpContexts.ParseExit | net/http/HttpContext.cc:11-81 | it ends in the request-line or the over state only, and fails only in the former |
| HttpContexts.AcceptedLine | net/http/HttpContext.cc:83-128 | all fields an accepted line leaves in the request |
| HttpContexts.LineAcceptedIff | net/http/HttpContext.cc:83-128 | a line is accepted if and only if it is method SP target SP HTTP/1.(0 or 1), method known, target free of spaces |
| HttpContexts.LineReprints | net/http/HttpContext.cc:99-107 | reprinting an accepted line gives it back if and only if it has a query or the request had none |
| HttpContexts.RejectedEarly | net/http/HttpContext.cc:83-94 | a line without a space changes nothing, one with an unknown method only the method, one without a second space sets the method only |
| HttpContexts.RejectedLeaves | net/http/HttpContext.cc:90-125 | a line rejected for its version leaves its method, path and query in the request |
| HttpContexts.StaleQueryIsReachable | net/http/HttpContext.cc:99-107 | so the next accepted line without a query gets the query of the rejected one |
| HttpContexts.PrintedLineParses | net/http/HttpContext.cc:83-128 | parsing a request's printed line gives its line fields back |
| HttpContexts.FieldPass | net/http/HttpContext.cc:47-74 | one pass over a printed header field stores that field and consumes its line |
| HttpContexts.FieldsParse | net/http/HttpContext.cc:47-74 | the printed fields and the blank line are parsed into the header map, in order |
| HttpContexts.PrintThenParse | net/http/HttpContext.cc:11-81 | parsing a printed request gives back its line fields with the printed fields stored in order, and leaves the body |
| HttpContexts.RequestRoundTrip | net/http/HttpContext.cc:11-81 | parsing a printed request whose fields list its header map gives back the request itself and leaves the body |
| HttpContexts.DistinctFieldsKept | net/http/HttpRequest.h:146 | with distinct names the map holds each name with its own value, and nothing else changes |
| HttpContexts.HttpContext.Reset | net/http/HttpContext.h:42-47 | the parser is back in its entry state with a fresh request |
| HttpContexts.HttpContext.LineParser | net/http/HttpContext.cc:83-128 | success and fields are those of the line function, whose accepted lines are characterised above |
| HttpContexts.HttpContext.LineStep | net/http/HttpContext.cc:21-46 | one pass in the request-line state |
| HttpContexts.HttpContext.HeaderStep | net/http/HttpContext.cc:47-74 | one pass in the header state |
| HttpContexts.HttpContext.ParseReq | net/http/HttpContext.cc:11-81 | entered in a live state it terminates with the parse's result and an empty buffer |
| HttpServers.ServedKeepsEntry | net/http/HttpServer.cc:38-51 | every message callback leaves the parser where the next one may enter it |
| HttpServers.HeadersIgnoreQuery | net/http/HttpContext.cc:47-74 | parsing the headers neither reads nor changes the query |
| HttpServers.AcceptedAlike | net/http/HttpContext.cc:83-128 | leftovers of earlier lines change nothing about a line but its missing query |
| HttpServers.FirstLineDecides | net/http/HttpServer.cc:38-51 | once the first line is complete the verdict is a 400 or an answer, by that line alone |
| HttpServers.ReplyIsLocal | net/http/HttpServer.cc:38-70 | a chunk gets the reply of a new connection, or none once an earlier reply has shut the connection down |
| HttpServers.ContextAfter | net/http/HttpServer.cc:42-50 | after an answer the next chunk is parsed exactly as on a new connection; a refused line leaves behind the fields it has set |
| HttpServers.ReplyExact | net/http/HttpServer.cc:38-51 | a chunk gets no reply if and only if the connection is shut down or the chunk has no complete line; an answer if and only if it is not shut down and the first line is well formed |
| HttpServers.VerdictIsLocal | net/http/HttpServer.cc:38-70 | what msg_cb tries to send for a chunk does not depend on earlier chunks |
| HttpServers.ServerRun | net/http/HttpServer.cc:30-70 | over every run, each chunk up to and including the first with a closing reply gets the reply of a new connection, every later one none |
| HttpServers.PartialLineIsLost | net/http/HttpContext.cc:42-45 | a chunk without a complete line changes nothing and is not kept |
| HttpServers.SplitRequest | net/http/HttpContext.cc:79 | a request split in its first line is answered if and only if the second part begins with a request line |
| HttpServers.SplitInHeaders | net/http/HttpContext.cc:68-73 | a request cut inside its headers is answered on the first part's headers; if that closes, nothing more is sent; else the second part gets a 400 if and only if it has a line and its first one is no request line |
| HttpServers.SameHeaders | net/http/HttpContext.cc:47-74 | bytes without a line end add no header unless they complete a CRLF |
| HttpServers.NoRequestLineInsideAnother | net/http/HttpContext.cc:83-128 | a request line with bytes put before it is no request line |
| HttpServers.CutLineNotAccepted | net/http/HttpServer.cc:38-51 | a text cut inside its first line is not accepted both whole and from its second part |
| HttpServers.ParsedConnection | net/http/HttpRequest.h:149-153 | the Connection value the parser stores is that of the last complete Connection line before the first line without a colon |
| HttpServers.ReplyForm | net/http/HttpServer.cc:38-70 | the reply to one chunk, closing included, read off its text without the parser |
| HttpServers.ConnectionCompleted | net/http/HttpContext.cc:47-74 | an LF that completes the pending header line gives its value to the Connection field if it is a Connection line, and else changes nothing |
| HttpServers.LateBytesIff | net/http/HttpServer.cc:55-57 | bytes without a line end change how an answer closes if and only if they begin with the LF that completes a Connection line whose value closes differently |
| HttpServers.SplitHarmlessIff | net/http/HttpServer.cc:38-70 | the exact condition, in terms of the two texts, under which two chunks get the replies they would get as one: never for a cut in an accepted first line, always after a refused one, and after an accepted one when both texts close alike and the second part has no line end or the first closes |
| HttpServers.ReplyReaches | net/TcpConnection.cc:65-73 | a reply goes out if and only if the connection is connected, and the connection stays so if and only if the reply does not shut it down |
| HttpServers.TextForChunk | net/http/HttpServer.cc:38-70 | what one chunk makes a connected connection accept for sending, and whether it is shut down, by the text of the chunk: nothing, the 400, the closing answer or the other one |
| HttpServers.RepliesReachTheConnection | net/http/HttpServer.cc:38-51 | a run of chunks is a legal run of the connection, and what the connection accepts for sending is the text of the replies in order, for every pattern of partial writes that do not fail |
| HttpServers.HttpServer.ConnCb | net/http/HttpServer.cc:30-36 | a new connection's parser is in its entry state |
| HttpServers.HttpServer.Say | net/http/HttpServer.cc:44-45 | the connection after a send and, for a closing reply, a shutdown |
| HttpServers.HttpServer.RequestCb | net/http/HttpServer.cc:53-70 | the connection after sending the answer and, if it closes, the shutdown; it closes by the version and the Connection field |
| HttpServers.HttpServer.MsgCb | net/http/HttpServer.cc:38-51 | the connection after consuming its input and sending the verdict on it as far as it still sends; the parser is as the served chunk leaves it |
| ThreadPools.AddPassCounts | base/ThreadPool.cc:75-83 | one pass of add_task keeps the counting invariant, whichever sleepers notify wakes |
| ThreadPools.TakePassCounts | base/ThreadPool.cc:91-106 | so does one pass of take |
| ThreadPools.NextKeeps | base/ThreadPool.cc:48-124 | every step of any thread keeps threads, counts and queue in order |
| ThreadPools.RunKeeps | base/ThreadPool.cc:22-124 | so does every run |
| ThreadPools.ReachableInv | base/ThreadPool.cc:22-45 | the invariant holds in every state reachable from start, with room for 100 tasks for each worker |
| ThreadPools.NoLostWakeup | base/ThreadPool.cc:68-107 | a worker asleep unsignalled means signalled workers >= queued tasks; a producer asleep unsignalled means signalled producers >= free slots |
| ThreadPools.NeverAllAsleep | base/ThreadPool.cc:68-107 | workers are never all asleep with work queued, nor producers with room free and none signalled |
| ThreadPools.TasksConserved | base/ThreadPool.cc:81-99 | tasks taken, then the queue, are all adds in order; the queue never exceeds its bound |
| ThreadPools.AddedTaskIsKept | base/ThreadPool.cc:68-84 | over every run, a task that was added has entered the queue or is still with its blocked producer |
| ThreadPools.StopWakesEveryWorker | base/ThreadPool.cc:48-54 | after stop no worker sleeps in take |
| ThreadPools.StoppedWorkersLeave | base/ThreadPool.cc:86-124 | after stop, with the queue empty, a worker that is idle can leave the pool, one that was woken or runs a task becomes idle |
| ThreadPools.StoppedForGood | base/ThreadPool.cc:48-54 | no step starts a stopped pool again |
| ThreadPools.StuckMeansIdleOrSelfBlocked | base/ThreadPool.cc:68-124 | a started pool that cannot move is empty with all workers waiting, or full with all workers blocked in add_task, never both |
| ThreadPools.NextApart | base/ThreadPool.cc:48-124 | no step leaves a thread in two places |
| ThreadPools.NextFull | base/ThreadPool.cc:76-83 | every step keeps it that all workers are inside add_task only while the queue is full |
| ThreadPools.SelfBlockedForever | base/ThreadPool.cc:76-79 | a full pool with every worker inside add_task stays so and takes no task on any run, spurious wake-ups, other producers and stop included |
| ThreadPools.WorkerTakes | base/ThreadPool.cc:86-124 | while some worker is not inside add_task the workers by themselves get a task taken: that worker or, when it sleeps, one that has been signalled |
| ThreadPools.CanTakeIff | base/ThreadPool.cc:68-124 | a started pool with tasks queued can take one, by steps of its workers alone and without spurious wake-ups, if and only if it is not full with every worker inside add_task; otherwise no run at all takes one |
| ThreadPools.WorkersCanBlockThemselves | base/ThreadPool.cc:76-79 | such a pool is reachable, with nobody able to move and no task ever taken again |
| ThreadPools.Condition.Wait | base/Condition.h:51-59 | the thread is asleep and no longer counted as woken |
| ThreadPools.Condition.Notify | base/Condition.h:61-67 | the chosen sleepers, at least one if there is any, become woken |
| ThreadPools.Condition.NotifyAll | base/Condition.h:68-74 | every sleeper becomes woken |
| ThreadPools.ThreadPool.Start | base/ThreadPool.cc:22-45 | the pool is started with the given workers, all about to take, and room for 100 tasks each |
| ThreadPools.ThreadPool.AddTask | base/ThreadPool.cc:68-84 | without workers the queue is left alone and the caller is told to run the task; else sleeps, or enqueues the task (after a wait, the one it waited with) and notifies |
| ThreadPools.ThreadPool.Take | base/ThreadPool.cc:86-107 | sleeps, or removes and returns the oldest task and signals a producer, or returns none after stop |
| ThreadPools.ThreadPool.StopAll | base/ThreadPool.cc:50-54 | the pool is not started and no worker is left asleep |
| EventLoops.NextKeeps | net/EventLoop.cc:93-106 | every step of the loop or a poster keeps wake-ups due, the flag and the task order |
| EventLoops.RunKeeps | net/EventLoop.cc:93-106 | so does every run |
| EventLoops.NoLostWakeup | net/EventLoop.cc:201-230 | in poll with a task queued, the eventfd is readable or a poster is about to write it |
| EventLoops.EntryConditionIsExact | net/EventLoop.cc:201-212 | from any entry state this holds on all runs if and only if the queue is empty or the eventfd readable at entry |
| EventLoops.WakeupAddsOne | net/EventLoop.cc:146-154 | each wake-up adds one to the eventfd until it is full at 2^64 - 2, and ends the post |
| EventLoops.PushOwesWakeup | net/EventLoop.cc:203-211 | a push by another thread queues the task last and leaves its wake-up still to be done |
| EventLoops.ReadableUntilRead | net/EventLoop.cc:146-164 | over every run a readable eventfd stays readable until the loop reads it |
| EventLoops.TasksConserved | net/EventLoop.cc:201-230 | tasks run, then the rest of tmp_vector, then the queue, are all posts in push order |
| EventLoops.BlockedMeansAllRan | net/EventLoop.cc:93-106 | when poll can block with no poster on its way, every posted task has run |
| EventLoops.DueGrows | net/EventLoop.cc:214-230 | no step between two polls takes back a task that is due |
| EventLoops.RunsBeforeNextPoll | net/EventLoop.cc:93-106 | tasks posted before handle_tasks swaps the queue have run, in order, when the loop is next in poll |
| EventLoops.DrainRuns | net/EventLoop.cc:225-229 | the tasks taken over run one by one and the flag is cleared |
| EventLoops.QuietRound | net/EventLoop.cc:93-106 | with nobody else posting, a round runs every task, those its own callbacks post included, and ends in poll with the eventfd unreadable, so poll blocks |
| EventLoops.FirstQuietRound | net/EventLoop.cc:93-106 | the first round, entered with the flag unset, ends so too when its callbacks post nothing |
| EventLoops.EventLoop.Wakeup | net/EventLoop.cc:146-154 | the eventfd counter grows by one unless it is full |
| EventLoops.EventLoop.WakeupChannelHandleRead | net/EventLoop.cc:156-164 | the eventfd counter is cleared; QuietRound says what that is for |
| EventLoops.EventLoop.PushTask | net/EventLoop.cc:203-208 | the task is last in the queue, and a wake-up follows if and only if another thread posts or tasks are being handled |
| EventLoops.EventLoop.HandleTasks | net/EventLoop.cc:214-230 | each queued task runs once, in order; what they post stays queued with the eventfd readable |
| Polling.CloseAndRead | net/Channel.cc:69-106 | the close callback is due if and only if POLLHUP comes without POLLIN, and then the read callback is due too |
| Polling.CtlFails | net/EpollPoller.cc:165-179 | epoll_ctl fails if and only if an added descriptor is there or another one is missing; else exactly its entry changes |
| Polling.RemovedIsGone | net/EpollPoller.cc:140-163 | a removed channel is in neither the map nor the kernel set, may be added again, and no other descriptor is touched |
| Polling.Channel.EnableRead | net/Channel.h:72-76 | the read bits are added and the poller is updated |
| Polling.Channel.EnableWrite | net/Channel.h:77-81 | the write bit is added and the poller is updated |
| Polling.Channel.DisableWrite | net/Channel.h:88-92 | the write bit is removed and the poller is updated |
| Polling.Channel.DisableAll | net/Channel.h:93-97 | no interest is left and the poller is updated |
| Polling.Channel.Detach | net/Channel.cc:40-46 | the poller forgets the channel |
| Polling.Channel.HandleEvent | net/Channel.cc:62-118 | the callbacks run for a mask, in order: close, error, read, write |
| Polling.EpollPoller.UpdateEpoll | net/EpollPoller.cc:165-179 | adding needs an absent descriptor, changing and deleting a present one; anything else is a fault |
| Polling.EpollPoller.Update | net/EpollPoller.cc:107-138 | map, kernel set and status after an update, by the channel's status and mask |
| Polling.EpollPoller.Remove | net/EpollPoller.cc:140-163 | map, kernel set and status after a removal |
| PollerRuns.NextKeeps | net/EpollPoller.cc:107-179 | each call keeps every channel's status in agreement with map and kernel set |
| PollerRuns.AgreementKept | net/EpollPoller.cc:107-179 | so does every run |
| PollerRuns.RegistryAgreement | net/EpollPoller.cc:107-179 | without updates of s_del channels: s_new is absent, s_old is in both with the kernel mask its non-zero events, s_del is in the map only; no epoll_ctl fails |
| PollerRuns.FaultsIff | net/EpollPoller.cc:126-130 | a call whose assertions hold fails in epoll_ctl if and only if it updates an s_del channel |
| PollerRuns.OthersUntouched | net/EpollPoller.cc:107-163 | a call leaves the registration of every other channel as it is |
| Connections.WritingIffOutput | net/TcpConnection.cc:133-143 | while open, write interest holds if and only if output is buffered |
| Connections.WatchedFor | net/Channel.cc:10-11 | while a connection is open the kernel watches its descriptor for POLLIN and POLLPRI, and for POLLOUT if and only if output is buffered |
| Connections.SendKeeps | net/TcpConnection.cc:65-145 | sending keeps the invariant for every answer of the socket |
| Connections.WriteKeeps | net/TcpConnection.cc:245-282 | so does a write event |
| Connections.CloseKeeps | net/TcpConnection.cc:284-300 | so does closing, which runs the close callback for the first time |
| Connections.DestroyKeeps | net/TcpConnection.cc:318-328 | so does destroying a connected or closed connection |
| Connections.DispatchUnfolds | net/Channel.cc:62-118 | a dispatch is the close handler if due, then the read handler, then the write handler |
| Connections.NextKeeps | net/TcpConnection.cc:65-328 | every event keeps the invariant and moves the status forward only |
| Connections.RunKeeps | net/TcpConnection.cc:65-328 | so does every run |
| Connections.BytesConserved | net/TcpConnection.cc:75-145 | bytes written followed by bytes buffered are all accepted messages in order; bytes consumed followed by bytes unread are all bytes received |
| Connections.MessageTakenIff | net/TcpConnection.cc:95-119 | a message is accepted if and only if the connection is connected and its direct write, if tried, does not fail; otherwise nothing changes |
| Connections.WritesWhatIsTaken | net/TcpConnection.cc:95-145 | exactly what the socket takes leaves the message or the buffer, the rest is buffered behind what is there |
| Connections.HalfCloseIsSafe | net/TcpConnection.cc:148-170 | at most one socket shutdown, after every accepted byte, with no write after it; while disconnecting it has happened if and only if no output is left |
| Connections.LateSendBreaksIff | net/TcpConnection.cc:75-145 | a queued send that reaches a half-closed connection breaks the guarantees if and only if no output is buffered and its direct write does not fail: its bytes then follow the shutdown |
| Connections.DrainsThenShutsDown | net/TcpConnection.cc:254-270 | a half-closed connection whose socket keeps taking bytes writes everything and then shuts down |
| Connections.ClosesOnce | net/TcpConnection.cc:284-300 | unless a dispatch or a destruction meets the exact failing condition of the two rows below, on every run the status only moves forward, the close callback runs at most once, the connection callback once up and once down, no assertion and no epoll_ctl fails |
| Connections.ClosesIff | net/Channel.cc:62-118 | over all masks, a dispatch whose message callback makes no call closes if and only if POLLHUP comes without POLLIN or a due read reports the end of the stream |
| Connections.FailedReadIsHarmless | net/TcpConnection.cc:237-241 | a failing read leaves the connection as it is |
| Connections.InputArrives | net/TcpConnection.cc:227-232 | bytes read are put behind the unread ones, and the message callback takes them from the front |
| Connections.ForceCloseCloses | net/TcpConnection.cc:172-188 | force_close closes an open connection and does nothing to another |
| Connections.DescriptorFreed | net/TcpConnection.cc:284-328 | closing takes the descriptor out of the kernel set and, if the connection is destroyed at once, out of the map, and no other descriptor |
| Connections.DestroyFrees | net/TcpConnection.cc:318-328 | so does destroying a connection later |
| Connections.NotifiedIff | net/TcpConnection.cc:95-109 | a send is followed by the write-complete notification if and only if one is set and a direct write takes the whole message |
| Connections.OnlySendNotifies | net/TcpConnection.cc:258-264 | no other call and no handler notifies, the one that writes the last buffered byte included |
| Connections.BufferedNeverNotified | net/TcpConnection.cc:119-144 | a message not written whole at once is completed by write events without any notification |
| Connections.Drains | net/TcpConnection.cc:245-282 | an open connection whose socket keeps taking bytes writes all its output and nothing else |
| Connections.DisconnectedIsInert | net/TcpConnection.cc:65-188 | user calls on a disconnected connection change nothing but what is taken from the input buffer |
| Connections.DispatchBreaksIff | net/Channel.cc:69-106 | a dispatch trips an assertion if and only if POLLHUP comes without POLLIN and the read reports the end |
| Connections.DestroyBreaksIff | net/TcpConnection.cc:318-328 | connect_destroy passes its assertions if and only if the connection is connected, or closed and known to the poller |
| Connections.FailuresAreReachable | net/TcpConnection.cc:284-328 | from every new connection, half-closing and then destroying it, and POLLHUP alone at the end of the stream, trip the assertions |
| Connections.TcpConnection.constructor | net/TcpConnection.cc:40-58 | a connecting connection, unregistered, with empty buffers |
| Connections.TcpConnection.Send | net/TcpConnection.cc:65-73 | sends when connected, else does nothing |
| Connections.TcpConnection.SendRunInLoop | net/TcpConnection.cc:75-145 | direct write, notification, buffering of the rest and write interest, as the step function; nothing on a closed connection |
| Connections.TcpConnection.Shutdown | net/TcpConnection.cc:148-158 | half-close, as the step function |
| Connections.TcpConnection.ShutdownRunInLoop | net/TcpConnection.cc:159-170 | the socket is shut down unless a write event is awaited |
| Connections.TcpConnection.ForceClose | net/TcpConnection.cc:172-188 | closes an open connection, does nothing to another |
| Connections.TcpConnection.HandleRead | net/TcpConnection.cc:222-242 | buffers what was read, closes at the end of the stream, ignores an error |
| Connections.TcpConnection.HandleWrite | net/TcpConnection.cc:245-282 | writes buffered output, drops write interest when it is empty, completes a half-close |
| Connections.TcpConnection.HandleClose | net/TcpConnection.cc:284-300 | disconnected, without interest, close callback run once more |
| Connections.TcpConnection.ConnectEstablished | net/TcpConnection.cc:309-315 | connected and registered for reading |
| Connections.TcpConnection.ConnectDestroy | net/TcpConnection.cc:318-328 | disconnected and unknown to the poller |
| Timers.MinKeyAdd | net/TimerQueue.cc:208-222 | the first key after an insertion is the lower of the new key and the old first one |
| Timers.ReaddedKeeps | net/TimerQueue.cc:203-240 | inserting under a fresh expiration keeps the indexes in agreement and arms for the earliest one |
| Timers.ReaddKeepsIndexIff | net/TimerQueue.cc:224-225 | inserting keeps the indexes in agreement if and only if the expiration is not a key yet |
| Timers.CollisionBreaksSizes | net/TimerQueue.cc:224-225 | otherwise the second index gets one entry more than the first |
| Timers.TwoTimersCollide | net/TimerQueue.cc:101-107 | two timers added in one microsecond with one delay collide, from every state |
| Timers.SizesAgree | net/TimerQueue.cc:153 | indexes in agreement have equal size |
| Timers.ExpiredExactly | net/TimerQueue.cc:150-172 | extraction takes exactly the timers due, earliest first |
| Timers.AddKeeps | net/TimerQueue.cc:101-107 | adding keeps the invariant, inside a batch too |
| Timers.CancelKeeps | net/TimerQueue.cc:109-130 | so does cancelling any id |
| Timers.ExpireKeeps | net/TimerQueue.cc:150-172 | so does extracting a batch |
| Timers.RearmKeeps | net/TimerQueue.cc:175-191 | so does putting back or deleting one timer of the batch |
| Timers.NextKeeps | net/TimerQueue.cc:101-240 | so does every step |
| Timers.RunKeeps | net/TimerQueue.cc:101-240 | so does every run |
| Timers.IndexAgreement | net/TimerQueue.cc:101-240 | on every run the indexes are inverse and of equal size, keys are expirations, and every issued id is exactly one of waiting, in the batch, or deleted once |
| Timers.OnlyFreshnessAssumed | net/TimerQueue.cc:109-191 | in reachable states iterators and batch entries are valid, so fresh expirations are all that is assumed |
| Timers.NoTimerForgotten | net/TimerQueue.cc:25-66 | outside handle_expiration, while a timer waits the timerfd is readable or armed no later than the earliest expiration or 100 microseconds after it was armed |
| Timers.ReturnArmsExactly | net/TimerQueue.cc:192-200 | on return from handle_expiration it is armed for exactly the earliest one, or 100 microseconds ahead if that is closer; the return itself arms it only if nothing was put back |
| Timers.TimerFires | net/TimerQueue.cc:25-66 | once the earliest expiration is reached and 100 microseconds have passed, the timerfd is readable |
| Timers.NotReadableUntilTick | net/TimerQueue.cc:41-50 | nothing but the passing of time makes the timerfd readable |
| Timers.ExpirationReads | net/TimerQueue.cc:132-147 | handling an expiration reads the timerfd, which then stays unreadable until time passes, also when no timer is left |
| Timers.BatchIsExact | net/TimerQueue.cc:132-147 | a batch is the waiting timers with an expiration strictly before now, each once, in order |
| Timers.BatchRunsInOrder | net/TimerQueue.cc:140-143 | whatever callbacks add or cancel, each timer of the batch runs exactly once, in order |
| Timers.DeadStays | net/TimerQueue.cc:109-191 | a cancelled timer stays cancelled through every step |
| Timers.CancellationHolds | net/TimerQueue.cc:109-147 | after cancelling an issued id it never waits again and runs in no later batch, over every run |
| Timers.CancelStopsRuns | net/TimerQueue.cc:109-147 | after an issued id is cancelled its callback runs at most once more, and only if it was still to come in the batch under way |
| Timers.LaterBatches | net/TimerQueue.cc:132-147 | over every run from between two batches, whatever runs belongs to a batch with a higher number |
| Timers.NoDrift | net/Timer.cc:8-16 | over every run, a waiting timer's expiration is its first one plus the interval times the number of runs in between |
| Timers.WrappedSchedule | net/TimerQueue.cc:101-107 | over every run, a timer asked to repeat is due, while it waits after k runs, its delay and k intervals after it was added, the interval being the delay cut to 32 bits |
| Timers.DueEveryDelay | net/TimerQueue.cc:101-107 | with a delay of fewer than 2^31 seconds it is due at the time of the addition plus the delay times one more than the number of runs, in microseconds |
| Timers.OneShotDue | net/TimerQueue.cc:101-107 | a timer that does not repeat waits for exactly the time it was added for |
| Timers.WaitsUntilRun | net/TimerQueue.cc:109-191 | over every run a waiting timer that is not cancelled waits, or is in the batch about to run it, until its callback has run, whatever happens to other timers |
| Timers.NeverEarly | net/TimerQueue.cc:132-147 | no callback runs before its timer has expired |
| Timers.RearmedAt | net/TimerQueue.cc:178-191 | a timer of the batch is restarted and put back only if it repeats, and no other timer is touched |
| Timers.ScheduleKept | net/TimerQueue.cc:101-240 | every step keeps a timer on its schedule |
| Timers.RepeaterStays | net/TimerQueue.cc:175-191 | over every run a repeating, unmarked timer that is not cancelled is never deleted, and waits again whenever no batch is handled |
| Timers.PutBackIff | net/TimerQueue.cc:178-191 | a timer of the batch is put back if and only if it repeats and is not marked, else it is deleted; the flag that the timerfd is armed already is set if and only if one was put back |
| Timers.RunsAtMostOnce | net/TimerQueue.cc:175-191 | over every run a timer that does not repeat or is marked runs at most once more |
| Timers.RepeatsIff | net/TimerQueue.cc:101-191 | over every run a timer added to repeat and not cancelled is put back after it has run if and only if its delay is no multiple of 2^32 and its id was not marked before; otherwise it runs once and is deleted |
| Timers.OneShotRunsOnce | net/TimerQueue.cc:101-191 | a timer added not to repeat runs at most once |
| Timers.MarksAreHarmlessIff | net/TimerQueue.cc:122-129 | along a run no id still to be issued is ever marked if and only if no id is cancelled, while callbacks run, before the counter reaches it |
| Timers.HarmIff | net/TimerQueue.cc:122-129 | over every run, a repeating timer is marked from the start if and only if the run cancels its id, while callbacks run, before it is added |
| Timers.UnbornMarkStopsRepeating | net/TimerQueue.cc:122-129 | a repeating timer whose id was cancelled before it was issued runs at most once |
| Timers.TimerQueue.ResetTimerFd | net/TimerQueue.cc:25-66 | the timerfd is armed relative to now, at least 100 microseconds ahead |
| Timers.TimerQueue.Readd | net/TimerQueue.cc:203-240 | both insertions and the arming, as the step function |
| Timers.TimerQueue.AddTimer | net/TimerQueue.cc:101-107 | the next id of the counter all queues share, its timer inserted |
| Timers.TimerQueue.CancelTimer | net/TimerQueue.cc:109-130 | deletes a waiting timer, or notes the id while a batch is handled |
| Timers.TimerQueue.GetExpired | net/TimerQueue.cc:150-172 | the batch is taken out of both indexes |
| Timers.TimerQueue.HandleInterval | net/TimerQueue.cc:175-201 | the batch is put back or deleted timer by timer, then the timerfd is armed if nothing was put back |
| Timers.TimerQueue.HandleExpiration | net/TimerQueue.cc:132-147 | extract, run the callbacks with whatever they do to the queue, put back: the run of these steps |
| Connectors.ConnectedKeeps | net/Connector.cc:89-156 | connecting keeps the invariant for every outcome |
| Connectors.RetriedKeeps | net/Connector.cc:159-193 | so does giving a channel up and retrying |
| Connectors.WriteKeeps | net/Connector.cc:209-243 | so does a write event, with or without a socket error |
| Connectors.DispatchKeeps | net/Channel.cc:87-116 | so does one dispatch, an error and a write event in one mask included |
| Connectors.NextKeeps | net/Connector.cc:29-259 | so does every step |
| Connectors.RunKeeps | net/Connector.cc:29-259 | so does every run |
| Connectors.DescriptorsOwned | net/Connector.cc:89-243 | every descriptor opened is held by the live channel, closed once, or handed over once, and only one of these |
| Connectors.ResetBeforeRetry | net/Connector.cc:140-199 | no assertion fails: the queued reset has cleared the channel before a retry timer needs it empty |
| Connectors.DelayIsConstant | net/Connector.cc:159-180 | an attempt that failed but may be repeated sets a retry timer 30000 seconds ahead, and no other step sets one |
| Connectors.DispatchReleasesOnce | net/Connector.cc:209-259 | one dispatch releases the descriptor exactly once if a callback is due, and hands it over if and only if the socket is writable without error and a callback is set |
| Connectors.GoesOn | net/Connector.cc:29-259 | a step ends the attempts if and only if it is a connect that fails for good or a writable channel without an error |
| Connectors.KeepsTryingIff | net/Connector.cc:29-259 | on every run a started connector has a start queued, a channel watched or a retry pending if and only if no such step has happened |
| Connectors.StaysGivenUp | net/Connector.cc:29-259 | after one, no run opens a descriptor or tries again |
| Connectors.RetryBreaksIff | net/Connector.cc:140-180 | a retry timer trips the assertion if and only if it finds a channel to be replaced, which needs an iteration that outlasts the retry delay |
| Connectors.StartBreaksIff | net/Connector.cc:57-156 | starting trips an assertion if and only if the connector is connecting, or goes on to watch a descriptor while a channel is left |
| Connectors.LongIterationBreaks | net/Connector.cc:140-145 | a retry timer that fires in the iteration that set it finds the old channel and trips the assertion |
| Connectors.ChannelLifeCycle | net/Connector.cc:140-193 | the poller calls for one channel are a legal poller run that leaves the registry as it was |
| Connectors.Connector.Connect | net/Connector.cc:89-139 | a fresh descriptor is watched, closed for a retry, or closed for good |
| Connectors.Connector.Retry | net/Connector.cc:159-180 | the descriptor is closed and a retry timer set |
| Connectors.Connector.Remove | net/Connector.cc:182-193 | the channel leaves the poller and its reset is queued |
| Connectors.Connector.RunQueued | net/Connector.cc:57-72 | the queued reset clears the channel, the queued start connects |
| Connectors.Connector.HandleWrite | net/Connector.cc:209-243 | retries on a socket error, else hands the descriptor over or closes it |
| Connectors.Connector.HandleError | net/Connector.cc:245-259 | gives the channel up and retries |

## Left out

- CancellationHolds: a callback cancelled by an earlier callback of its own batch still runs in that batch, as in the code.
- HandleTasks: the method runs undisturbed by other threads and its tasks only post; all interleavings are covered by the step relation and its lemmas.
- AddTask: what an inline task does is not modelled, only that the call does not touch the queue.
- NoLostWakeup: says nothing about producers still blocked after `ThreadPool::stop`, which the code leaves asleep; it is stated on states, fairness of the scheduler is not modelled.
- HandleRead: the message callback is a separate step; `Next` runs it right after the read with an arbitrary list of user calls.
- ClosesOnce: leaves out the runs on which an assertion fails, which DispatchBreaksIff and DestroyBreaksIff delimit exactly.
- HandleClose: the connection and the close callback are counted; what user code does in them is a separate step, harmless by DisconnectedIsInert. The same holds of ConnectDestroy, and of ConnectEstablished, whose callback is followed by arbitrary user calls.
- HandleWrite: the notification it queues is a functor that only reads the data member, so it is not a step.
- DescriptorsOwned: a connector's channel is its descriptor and a registered flag; its poller calls are covered by ChannelLifeCycle.
- RequestCb: the text of the response is a parameter, one for each way of closing.
- Callback: timer callbacks are arbitrary sequences of clock ticks, additions and cancellations; what else they do is not modelled.
- `TcpConnection::start_read` and `stop_read` and `Channel::disable_read`: they can update an `s_del` channel, the case FaultsIff singles out.
- Calls of `send` and `shutdown` from other threads: the status is set by the caller before queued sends run, so the half-close guarantee is not theirs; LateSendBreaksIff says what such a send does.
- The high-water callback, and what user code does in the write-complete callback: the calls that follow a send are arbitrary.
- `Connector::stop` and `restart`, `EventLoop::quit`, the `max_queue` setter: unfinished in the source.
- Thread creation and joining, object lifetime, and data races on unsynchronised flags: they need a memory model.
- `TcpServer`, `TcpClient`, `Acceptor`, `EventLoopThread`, `EventLoopThreadPool`, `Thread`, `Mutex`, `CountDown`, `Atomic`: thin wrappers.
- Real sockets, epoll_wait, errno tables, addresses: the kernel appears only through its effects.
- `HttpResponse`, hexadecimal, floating-point and pointer printing, logging, time stamps as text.
- Arithmetic on 64-bit time stamps and ids is unbounded; the id counter shared by all queues may be advanced by others at any time.

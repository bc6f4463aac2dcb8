# Verified models of czrpc

czrpc is a header-only RPC and publish/subscribe framework over TCP. This project models its
concurrent protocols, its wire format and its in-place loops in Dafny and proves what they keep, over
every input and every run.

`dafny verify dfyconfig.toml` checks the whole project.

## How the models are built

Each protocol is a state machine: a `State`, an `Event`, a guard `Enabled` and a total `Step` in which
an event whose guard is false changes nothing. A run is any finite list of events (`Machine.Exec`), so a
theorem about `Run(events)` speaks about every interleaving. Where the code holds a mutex, the critical
section is one step; where it takes the mutex twice, it is two steps. Beside the machine of each
component stands its code in its own form, a class or a loop, whose methods are proved to take exactly the
machine's steps. The joined systems have no code of their own and build on the parts: `FrameStream`
contains `SendQueue` and `Reader`, `RpcSystem` contains `PendingCalls` and, for either direction,
`FrameStream`, `Shutdown` contains `ThreadPool`, and `Subscriptions` uses the set of pairs that
`TopicManager` proves the topic multimap to stand for.

What a machine keeps in its state is tied to what happened: for clocks, requests, answers, posted frames,
bindings and topic pairs a lemma names the event of the run they come from, so that the theorems can be
read without looking into `Step`.

| module | what it models |
|---|---|
| `Frames`, `Protocol`, `Bytes` | the three length-prefixed formats, their encoders and decoders |
| `Reader` | the header/content read loop of the connection and of both asynchronous clients |
| `SendQueue` | the asynchronous writer of client and server, with and without resend |
| `FrameStream` | writer, connections and readers joined |
| `Tables`, `PendingCalls` | the call table at lock granularity: register, route, sweep, wipe |
| `RpcSystem`, `RpcHistory`, `IdWrap` | asynchronous client, network and server joined, down to the bytes; its runs told by their events; what happens when ids wrap |
| `ThreadPool`, `Shutdown` | the pool with its stop protocol; the client's shutdown order |
| `SyncClient` | the synchronous client with many calling threads |
| `TopicManager`, `Subscriptions` | the topic multimap; subscriber, network and server joined |
| `ConnectLoop`, `Endpoint` | the connect-retry loop; splitting an address with strtok_r |
| `Machine`, `Subsequences`, `Basics` | runs and invariants; in-order subsequences; small shared definitions |

## What turned out to be false, and when it holds

- A callback can be dispatched twice. `route` takes the table's mutex twice and the sweep may run in
  between. It happens exactly when a sweep removes the entry between the two (`PendingCalls.AtMostTwice`,
  `PendingCalls.DoubleDispatchHappens`).
- A callback can be lost the same way: if another registration with the same id got into the table in
  between, route erases that one. It happens exactly when two ids in use coincide
  (`PendingCalls.EraseStealsIff`, `PendingCalls.LostCallbackHappens`).
- A response can reach another call's callback after the 32-bit id has wrapped. It does exactly when
  another call is pending under the same id (`RpcSystem.ReceiveMispairsIff`). Up to 2^32 allocated ids that
  cannot be, and with one more it can (`RpcSystem.OwnResponseUntilWrap`, `IdWrap.StaleResponseAfterWrap`).
- The stop of the pool can miss a worker, because the flag is set outside the mutex
  (`ThreadPool.StopCanMissAWorker`). It misses nobody if and only if no worker is between its test and its
  wait at the moment of the notification (`ThreadPool.StopMissesNobodyIff`); a worker that was missed is freed
  by a spurious wake-up only (`ThreadPool.OnlySpuriousWakeUpFrees`).
- Cancelling a topic in one mode silently ends it in the other. Client and server agree on a drained
  connection if and only if there is no such topic (`Subscriptions.Converges`); a reconnect heals it
  (`Subscriptions.ReconnectHeals`).
- A frame survives encoding and decoding if and only if no string has 2^32 bytes or more: the length is
  stored in an `unsigned int` (`Protocol.RequestStream` and its two companions). A body of 2^32 bytes
  arrives empty and is then taken for further frames (`Protocol.OversizedBody`).
- `get_endpoint` takes a const reference but overwrites the colons of the caller's string. A second call on
  the same string object answers as the first did if and only if the first rejected it
  (`Endpoint.SecondCallAgreesIff`).

## Assumptions

- Each io_service has one thread, so a handler is one step (the content handler is two, to show the
  early re-arm of the header read).
- A socket error is final for its connection, and a failed write has sent a strict prefix of its frame.
- The clock is monotone; it is kept in milliseconds and read by the code in whole seconds.
- Four-byte integers are little-endian on both sides; strings are byte strings.
- Replacing a connection is one step. A subscriber API call is one step, and so is a reconnect with its
  resubscription; the server has one worker for it.
- In `RpcSystem` `result` is called once per `rpc_task`, and every string is shorter than 2^32 bytes.
- The server of the synchronous client answers each request at most once; `SyncClient.SecondAnswerIsMispaired`
  shows that this is needed.
- Locking a weak connection reference after the test that it has not expired is one step.

Clocks, arriving bytes, outcomes of connects and writes, the iteration order of the call table and of the
binding tables, and the set of live connections are events or parameters.

## Model

| member | source | states |
|---|---|---|
| Protocol.RequestBuffer | czrpc/client/client_base.hpp:149-159 | the appended buffer is the frame encoding: three truncated lengths, id, flag, three strings |
| Protocol.ResponseBuffer | czrpc/server/connection.hpp:179-188 | the same for responses: two lengths, id, code, two strings |
| Protocol.PushBuffer | czrpc/server/connection.hpp:190-199 | the same for pushes: three lengths, mode, three strings |
| Protocol.MakeRequest | czrpc/server/connection.hpp:160-170 | the slices at computed offsets are the message whose frame is the content cut by its header, and exactly exhaust the content |
| Protocol.MakeResponse | czrpc/client/client_base.hpp:138-146 | the same for responses, with a signed code |
| Protocol.MakePush | czrpc/client/sub_client.hpp:155-163 | the same for pushes |
| Protocol.Cut3 | czrpc/server/connection.hpp:165-168 | all three slices lie inside the content and add up to its computed length |
| Protocol.Cut2 | czrpc/client/client_base.hpp:143-144 | the same for two slices |
| Protocol.RequestStream | czrpc/server/connection.hpp:133-170 | decoding the concatenation of any list of encoded requests gives back the list and leaves nothing, if and only if every string is shorter than 2^32 bytes |
| Protocol.ResponseStream | czrpc/client/async_rpc_client.hpp:90-118 | the same for responses |
| Protocol.PushStream | czrpc/client/sub_client.hpp:125-163 | the same for pushes |
| Protocol.OversizedBody | czrpc/client/client_base.hpp:77-86 | a request with a body of 2^32 bytes arrives with an empty body, followed by the body as if it were frames |
| Protocol.RequestLayout | czrpc/client/client_base.hpp:149-159 | every byte of a request: which word or string lies at which offset, lowest byte first, and where it ends |
| Protocol.ResponseLayout | czrpc/server/connection.hpp:179-188 | the same for responses, with the code in two's complement |
| Protocol.PushLayout | czrpc/server/connection.hpp:190-199 | the same for pushes |
| Frames.NoWrap | czrpc/server/connection.hpp:136 | whatever the header says, the content length does not wrap in 64 bits and is not zero |
| Frames.DecodeEncoded | czrpc/server/connection.hpp:133-170 | decoding undoes encoding and leaves the bytes that follow |
| Frames.EncodeDecoded | czrpc/client/client_base.hpp:149-159 | re-encoding a decoded frame restores its bytes |
| Frames.StrictPrefixDecodesToNothing | czrpc/server/connection.hpp:133-152 | a frame cut off before its last byte decodes to nothing |
| Frames.EncodeAllDecoded | czrpc/client/client_base.hpp:149-159 | any byte string is the encoding of what it decodes to plus an unfinished rest |
| Frames.StreamRoundTrip | czrpc/base/protocol_define.hpp:36-97 | for every format a list of frames survives the round trip if and only if no field outgrows its length word |
| Frames.OversizedLastField | czrpc/client/client_base.hpp:80-82 | a last field too long for its length word arrives cut to its length modulo 2^32, and the rest of it is taken for further frames |
| Frames.DecodeAllSplit | czrpc/server/connection.hpp:110-158 | decoding is independent of where the byte stream is split |
| Frames.PrefixDecodesToCompleteFrames | czrpc/server/connection.hpp:110-158 | a byte prefix decodes to the first k frames if and only if those fit in it and frame k does not |
| Reader.RunInv | czrpc/server/connection.hpp:110-170 | in every run the delivered bytes are the encoding of the decoded frames plus what the buffers hold |
| Reader.ReaderDecodesTheStream | czrpc/server/connection.hpp:110-158 | for every chunking and every interleaving with the re-armed header read, what is decoded is exactly what is complete in the bytes |
| Reader.ReadLoop.constructor | czrpc/server/connection.hpp:47-52 | a fresh header buffer, nothing decoded |
| Reader.ReadLoop.OnBytes | czrpc/server/connection.hpp:113-115 | bytes are stored in place in the buffer of the outstanding read |
| Reader.ReadLoop.OnHead | czrpc/server/connection.hpp:128-136 | the header is copied out of the buffer and the content buffer cleared |
| Reader.ReadLoop.StartNextHead | czrpc/server/connection.hpp:141 | the header buffer is given to the next read before decoding |
| Reader.ReadLoop.DecodeContent | czrpc/server/connection.hpp:154-156 | the content is cut with the copied header |
| SendQueue.RunInv | czrpc/client/client_base.hpp:193-236 | in every run every posted buffer is in posting order gone, queued or still to be queued |
| SendQueue.OneOutstandingWrite | czrpc/client/client_base.hpp:193-236 | at most one write is outstanding; one is if and only if the queue is non-empty; its buffer is the front and is held nowhere else |
| SendQueue.WrittenInOrderAtMostOnce | czrpc/client/client_base.hpp:193-236 | over any failures and any switching of resend, written buffers are an in-order subsequence of the posted ones, each once |
| SendQueue.ResendLosesNothing | czrpc/client/client_base.hpp:219-228 | with resend on throughout, written buffers, queue and mailbox are the posted sequence |
| SendQueue.FailureDropsTheQueue | czrpc/client/client_base.hpp:209-235 | a failure with resend off drops exactly the queue, a success writes exactly its buffer, nothing else writes or drops |
| SendQueue.PostedAndResendByEvents | czrpc/client/client_base.hpp:54-58 | what counts as posted is what was handed over, in that order, and resend is what it was last set to |
| SendQueue.Writer.OnPosted | czrpc/client/client_base.hpp:193-204 | takes the writer's step: queue the buffer, start a write only if the queue was empty |
| SendQueue.Writer.AsyncWrite | czrpc/server/connection.hpp:215-218 | starts a write of the front |
| SendQueue.Writer.OnWritten | czrpc/client/client_base.hpp:209-235 | takes the completion step: pop and chain, or write again, or drop; an error clears the connected flag |
| FrameStream.RunInv | czrpc/client/client_base.hpp:193-236 | in every run each connection carries its fully sent frames and at most a part of one more |
| FrameStream.ServerDecodesWhatWasFullySent | czrpc/server/connection.hpp:110-170 | on every connection the server decodes in order a prefix of the frames fully sent there, all of them once the bytes have arrived; a cut-off frame yields nothing, also with resend |
| FrameStream.DeliveredInOrderAtMostOnce | czrpc/client/client_base.hpp:206-236 | over all connections the fully sent buffers are an in-order subsequence of the posted ones, each once, and so is what is decoded |
| FrameStream.ResendDeliversAPrefix | czrpc/client/client_base.hpp:222-228 | with resend on throughout, the fully sent buffers are the first posted ones without a gap |
| FrameStream.DecodedWerePosted | czrpc/server/connection.hpp:110-170 | what the server decodes over all connections are frames posted in the run, in posting order |
| FrameStream.ResendIsTheLastSet | czrpc/client/client_base.hpp:54-58 | resend in the joined system is what it was last set to |
| FrameStream.WritesStartOnTheCurrent | czrpc/client/client_base.hpp:206-208 | every write that starts, after a post, a completion or a failure, is bound to the current connection |
| FrameStream.SendsOnTheCurrent | czrpc/client/client_base.hpp:193-208 | from any idle state a posted frame goes out whole on the current connection, whichever it is, and on no other |
| FrameStream.ResendsOnTheNew | czrpc/client/client_base.hpp:221-228 | from any state with an unfinished write and resend on, after replacement and failure its whole frame goes out on the new connection |
| FrameStream.NothingAfterAnError | czrpc/client/client_base.hpp:107-116 | nothing is ever sent again on a connection that failed or was replaced |
| FrameStream.NextDecoded | czrpc/server/connection.hpp:154-156 | the frame a reader cuts next is the posted frame numbered like the next buffer fully sent on its connection, and no earlier one there had that number |
| FrameStream.CanCarry | czrpc/client/client_base.hpp:193-208 | a frame posted on a fresh connection can reach the point of being cut |
| Tables.ThreadsafeMap.Keys | czrpc/base/table/threadsafe_unordered_map.hpp:75-82 | visits every key exactly once |
| Tables.ThreadsafeMap.ForEachErase | czrpc/base/table/threadsafe_unordered_map.hpp:93-108 | erasing while iterating removes exactly the hits, each visited once, and keeps the rest |
| PendingCalls.RunInv | czrpc/client/async_rpc_client.hpp:120-189 | the table's invariant holds in every run at lock granularity |
| PendingCalls.AtMostTwice | czrpc/client/async_rpc_client.hpp:120-148 | a callback is handed over at most once by route and once by the sweep, and by both exactly when a sweep fell between route's find and erase |
| PendingCalls.NothingUnaccountedFor | czrpc/client/async_rpc_client.hpp:120-189 | at lock granularity pending, held, answered, timed out, wiped and stolen add up to one for each entered registration, two if raced |
| PendingCalls.EraseStealsIff | czrpc/client/async_rpc_client.hpp:123-125 | route's erase removes another registration's entry if and only if two ids in use coincide |
| PendingCalls.NothingStolen | czrpc/client/async_rpc_client.hpp:120-132 | no callback is lost to an erase in any run whose ids in use are distinct |
| PendingCalls.LostCallbackHappens | czrpc/client/async_rpc_client.hpp:120-132 | for every timeout some run loses a registered callback |
| PendingCalls.ExactlyOneFate | czrpc/client/async_rpc_client.hpp:120-189 | with route as one step, an entered registration is in exactly one of pending, answered, timed out, wiped |
| PendingCalls.PendingAgeIsBounded | czrpc/client/async_rpc_client.hpp:134-154 | no pending entry is older, counted from its emplace in the run, than the timeout plus the time since the last sweep read the clock |
| PendingCalls.NeverMoreThanASecondEarly | czrpc/client/async_rpc_client.hpp:134-148 | no callback is timed out more than a second early, counted from the moment add_bind_func read the clock to that of the sweep's reading |
| PendingCalls.RegisteredBy | czrpc/client/async_rpc_client.hpp:56-59 | every registration was made by an add_bind_func that read the clock at that moment, under the id its call was given |
| PendingCalls.TimedOutBy | czrpc/client/async_rpc_client.hpp:134-148 | every timeout was handed over by a sweep with the clock that sweep had read |
| PendingCalls.AnsweredBy | czrpc/client/async_rpc_client.hpp:120-132 | a callback is answered only by a response with the id it was registered under, which found its entry |
| PendingCalls.DoubleDispatchHappens | czrpc/client/async_rpc_client.hpp:120-132 | for every timeout some run dispatches one callback twice |
| PendingCalls.AsyncRpcClient.constructor | czrpc/client/async_rpc_client.hpp:15-18 | counter at 0, empty table |
| PendingCalls.AsyncRpcClient.NextCallId | czrpc/client/async_rpc_client.hpp:45 | the counter steps modulo 2^32 and its new value is the id |
| PendingCalls.AsyncRpcClient.ReadTime | czrpc/client/async_rpc_client.hpp:58 | add_bind_func reads the time in whole seconds before it takes the lock |
| PendingCalls.AsyncRpcClient.AddBindFunc | czrpc/client/async_rpc_client.hpp:56-59 | stores the callback with that time unless the id is taken, and takes the emplace step |
| PendingCalls.AsyncRpcClient.Find | czrpc/client/async_rpc_client.hpp:122-123 | takes the find step and returns its entry |
| PendingCalls.AsyncRpcClient.Erase | czrpc/client/async_rpc_client.hpp:125 | takes the erase step whatever is stored by now |
| PendingCalls.AsyncRpcClient.Dispatch | czrpc/client/async_rpc_client.hpp:126 | hands the found callback over with the response |
| PendingCalls.AsyncRpcClient.CheckRequestTimeout | czrpc/client/async_rpc_client.hpp:134-148 | removes exactly the entries whose age reached the limit and hands over one timeout for each |
| PendingCalls.AsyncRpcClient.Start | czrpc/client/async_rpc_client.hpp:181-184 | takes the wipe step |
| RpcHistory.RespondPosts | czrpc/server/rpc_message.hpp:34-54 | an answer posts exactly one response, with its code, name and body and the request's id, on the connection the request came on; an empty one posts nothing |
| RpcHistory.RespondedBy | czrpc/server/rpc_message.hpp:34-54 | every response comes from a handler that held the request and answered with exactly what the response says |
| RpcHistory.DecodedBy | czrpc/server/connection.hpp:154-170 | every request at the server was cut out of the bytes of its connection and is the one its caller passed |
| RpcHistory.CalledBy | czrpc/client/rpc_task.hpp:62-64 | every request is the one passed in a call, with the id from the counter filled in |
| RpcHistory.WhatACallbackGets | czrpc/client/async_rpc_client.hpp:120-132 | up to 2^32 ids, what route hands to a callback is what a handler answered to the request passed with that callback |
| RpcHistory.TakenInOrderOnce | czrpc/server/server.hpp:205-226 | the server takes requests in the order it cut them, each once |
| RpcHistory.WrittenOnceAfterRegistering | czrpc/client/rpc_task.hpp:62-64 | no request is handed to the writer twice or before its add_bind_func has finished |
| RpcHistory.ReconnectStartsAfresh | czrpc/client/async_rpc_client.hpp:181-184 | a reconnect empties the table, counts what was pending as wiped and adds a new connection in both directions |
| RpcSystem.DecodedRequest | czrpc/server/connection.hpp:160-170 | what the server cuts out of the bytes is, field for field, the request of the call whose buffer it is |
| RpcSystem.DecodedResponse | czrpc/client/client_base.hpp:138-146 | what the client cuts out of the bytes is a reply posted on that connection and not delivered before |
| RpcSystem.RunInv | czrpc/server/server.hpp:205-226 | in every run each job, reply, held and logged response carries the id and content of the call it belongs to |
| RpcSystem.OwnResponseOrTimeout | czrpc/client/async_rpc_client.hpp:120-148 | while ids of pending calls and undelivered replies are distinct, every callback handed over gets a response the server built for its own request, or the timeout code |
| RpcSystem.ReceiveMispairsIff | czrpc/client/async_rpc_client.hpp:120-126 | a received response finds a wrong callback if and only if another call is pending under the id of the call it answers |
| RpcSystem.OwnResponseUntilWrap | czrpc/client/async_rpc_client.hpp:41-54 | so it is in every run with at most 2^32 allocated ids, and no callback is lost |
| RpcSystem.LogIsComplete | czrpc/client/async_rpc_client.hpp:120-148 | the log of hand-overs and their contents misses none, by route or by the sweep |
| IdWrap.StaleResponseAfterWrap | czrpc/client/async_rpc_client.hpp:41-54 | with 2^32 + 1 allocated ids some run hands a callback another call's response |
| ThreadPool.ReachableInv | czrpc/base/thread_pool.hpp:37-101 | the pool's invariant holds in every run |
| ThreadPool.PoolIsWorkConserving | czrpc/base/thread_pool.hpp:49-88 | whenever a worker sleeps, the queue is no longer than pending notifies plus awake idle workers |
| ThreadPool.NothingStranded | czrpc/base/thread_pool.hpp:69-88 | no task waits while workers sleep, none is awake and no notify is pending |
| ThreadPool.FifoAtMostOnce | czrpc/base/thread_pool.hpp:37-88 | tasks leave in push order and each is run at most once by at most one worker |
| ThreadPool.LastExitLeavesNothing | czrpc/base/thread_pool.hpp:69-101 | after the last exit every task pushed before it has been run to the end; what is queued came later |
| ThreadPool.NoExitWithWork | czrpc/base/thread_pool.hpp:76-83 | when a worker exits, every task pushed so far has been run or is being run, each once |
| ThreadPool.StopCanMissAWorker | czrpc/base/thread_pool.hpp:90-101 | some run is stopped and notified with a worker asleep for good |
| ThreadPool.StopMissesNobodyIff | czrpc/base/thread_pool.hpp:90-101 | no worker ever sleeps again after the notification if and only if none was between its test and its wait |
| ThreadPool.OnlySpuriousWakeUpFrees | czrpc/base/thread_pool.hpp:76-101 | a missed worker stays asleep under every step but a spurious wake-up, after which stop can return |
| ThreadPool.Pool.MayAdd | czrpc/base/thread_pool.hpp:40-43 | turns a task away exactly if the flag is set |
| ThreadPool.Pool.Add | czrpc/base/thread_pool.hpp:49-51 | takes the push step |
| ThreadPool.Pool.TakeOrWait | czrpc/base/thread_pool.hpp:76-84 | takes the worker's step: return, run the front, or wait |
| Shutdown.StopRunsEveryCallback | czrpc/client/async_rpc_client.hpp:34-39 | when stop has returned, every callback handed over has run and the queue is empty |
| Shutdown.NoCallbackIsTurnedAway | czrpc/client/async_rpc_client.hpp:34-39 | in no run does the timer or io thread meet a stopped pool |
| Shutdown.StopCanReturn | czrpc/client/async_rpc_client.hpp:34-39 | some run reaches the end of stop after running a callback |
| SyncClient.RunInv | czrpc/client/rpc_client.hpp:58-65 | in every run nothing but the mutex holder's answer can be unread on a usable connection |
| SyncClient.EveryCallGetsItsOwnResponse | czrpc/client/rpc_client.hpp:37-65 | in every run the header and content a call returns answer its own request |
| SyncClient.SecondAnswerIsMispaired | czrpc/client/rpc_client.hpp:58-65 | with a server that answers twice, some call returns another call's answer |
| SyncClient.FailureEndsTheConnection | czrpc/client/client_base.hpp:107-116 | after a timer, a failed write or a failed read the client is not connected and has no usable connection |
| SyncClient.FailureEndsTheCalls | czrpc/client/rpc_client.hpp:67-71 | a call that had written by then never returns a result, whatever is opened later |
| SyncClient.OneConnectAtATime | czrpc/client/client_base.hpp:123-136 | in every run at most one call connects, none while connected, and a usable connection is never replaced |
| SyncClient.RpcClient.Disconnect | czrpc/client/client_base.hpp:107-116 | the flag is cleared and the connection never used again |
| SyncClient.RpcClient.NeedsConnection | czrpc/client/client_base.hpp:123-136 | both tests of the flag send the call to the right next stage |
| SyncClient.RpcClient.WriteImpl | czrpc/client/client_base.hpp:182-191 | takes the write step and throws exactly on error |
| SyncClient.RpcClient.ReadHeader | czrpc/client/client_base.hpp:100-104 | the shared header becomes that of the caller's own answer |
| SyncClient.RpcClient.ReadContent | czrpc/client/client_base.hpp:249-262 | the call returns its own answer, cut with its own header |
| TopicManager.StepSimulates | czrpc/server/topic_manager.hpp:17-75 | each operation on the multimap is the same operation on a set of live pairs |
| TopicManager.RefinesASetOfPairs | czrpc/server/topic_manager.hpp:17-75 | so over every sequence of operations and expiries, and no pair is stored twice |
| TopicManager.StoredIffAddedLast | czrpc/server/topic_manager.hpp:17-75 | a live pair is stored if and only if the last operation on it was to add it |
| TopicManager.PublishReachesEachOnce | czrpc/server/server.hpp:228-245 | a publish writes one copy to each subscriber alive in its turn and none elsewhere |
| TopicManager.SubscribersAre | czrpc/server/topic_manager.hpp:48-58 | the snapshot lists each subscriber of the topic once and nobody else |
| TopicManager.Manager.EqualRange | czrpc/server/topic_manager.hpp:20 | the range holds exactly the elements of the key |
| TopicManager.Manager.AddTopic | czrpc/server/topic_manager.hpp:17-29 | stores the pair unless a live copy is there |
| TopicManager.Manager.RemoveTopic | czrpc/server/topic_manager.hpp:31-46 | the erasing loop over the range removes exactly the pair |
| TopicManager.Manager.RemoveAllTopic | czrpc/server/topic_manager.hpp:60-75 | the erasing loop over the table removes exactly the connection's pairs |
| TopicManager.Manager.GetConnectionByTopic | czrpc/server/topic_manager.hpp:48-58 | the snapshot of the topic's connections |
| TopicManager.Publish | czrpc/server/server.hpp:228-245 | one write for each reference that still locks in its turn |
| Subscriptions.RunInv | czrpc/client/sub_client.hpp:40-84 | in every run the requests in flight will leave the server with the client's topics less the orphans |
| Subscriptions.Converges | czrpc/client/sub_client.hpp:165-179 | on a drained live connection the server's topics are the bound topics less the orphans; equal if and only if there is no orphan |
| Subscriptions.BoundIffSubscribedLast | czrpc/client/sub_router.hpp:19-56 | a topic is bound in a mode if and only if the last call about it in that mode was a subscribe |
| Subscriptions.ConvergesByCalls | czrpc/client/sub_client.hpp:40-84 | once drained, the server publishes a topic if and only if some mode was last subscribed and no cancel came since the last subscribe or connect |
| Subscriptions.ReconnectHeals | czrpc/client/sub_client.hpp:224-232 | from every reached state a failure and a reconnect lead, once drained, to exactly the bound topics |
| Subscriptions.QueueLostIff | czrpc/client/client_base.hpp:219-232 | queued requests are lost in a failure if and only if resend is off |
| Subscriptions.DeadConnectionsAreForgotten | czrpc/server/server.hpp:267-270 | the server keeps no topic for a connection it has seen fail or freed |
| Subscriptions.ConvergesWithModesApart | czrpc/client/sub_client.hpp:165-179 | with no topic cancelled in one mode while bound in the other, they are always equal |
| Subscriptions.CanDrain | czrpc/server/server.hpp:247-257 | from every state of a live connection the traffic can drain |
| Subscriptions.CancellingOneModeLosesBoth | czrpc/client/sub_client.hpp:72-84 | for every topic some run leaves it bound at the client and unknown to the server |
| Subscriptions.SubRouter.Bind | czrpc/client/sub_router.hpp:19-41 | overwrites the binding in the table of its mode only |
| Subscriptions.SubRouter.Unbind | czrpc/client/sub_router.hpp:43-56 | removes the binding from the table of its mode only |
| Subscriptions.SubRouter.GetAllTopic | czrpc/client/sub_router.hpp:85-100 | lists each bound topic once for each mode it is bound in |
| Subscriptions.SubClient.Subscribe | czrpc/client/sub_client.hpp:40-70 | posts the request, binds in the table of its mode, and takes the subscribe step |
| Subscriptions.SubClient.CancelSubscribe | czrpc/client/sub_client.hpp:72-84 | posts the request, unbinds in the table of its mode, and takes the cancel step |
| Subscriptions.SubClient.Start | czrpc/client/sub_client.hpp:165-179 | takes the reconnect step: the loop posts a request for exactly the bound topics |
| ConnectLoop.Connect | czrpc/client/client_base.hpp:161-180 | ends with the only allowed outcome, throwing after at most max(1, 50 x timeout) failures and never within timeout - 1 seconds |
| ConnectLoop.OutcomeIsDetermined | czrpc/client/client_base.hpp:161-180 | at most one outcome is allowed |
| ConnectLoop.LimitTimesOut | czrpc/client/client_base.hpp:173-177 | after that many failures the clock test is true |
| Endpoint.StrtokR | czrpc/base/util.hpp:23-32 | section 7.24.5.8 of ISO C11: the next token's place, one NUL written after it, where to go on |
| Endpoint.Split | czrpc/base/util.hpp:17-36 | returns the runs and leaves a NUL after each of them, nothing else changed |
| Endpoint.TokensFromAreRuns | czrpc/base/util.hpp:17-36 | the tokens are all maximal delimiter-free runs and only those, left to right |
| Endpoint.SplitUndoesJoin | czrpc/base/util.hpp:17-36 | splitting undoes joining two non-empty delimiter-free parts |
| Endpoint.MarkedShowsFirstRun | czrpc/base/util.hpp:21-24 | after a split the caller's string reads as its first run |
| Endpoint.GetEndpoint | czrpc/base/util.hpp:43-58 | returns the answer to the address and leaves the argument marked if it has a colon |
| Endpoint.AcceptedIff | czrpc/base/util.hpp:43-58 | an address is accepted with a host and a port if and only if these are its two maximal colon-free runs in order and there is no other |
| Endpoint.EndpointUndoesJoin | czrpc/base/util.hpp:43-58 | host, colon and port give back host and port |
| Endpoint.SecondCallAgreesIff | czrpc/base/util.hpp:43-58 | a second call on the same string object gives the first one's answer if and only if the first rejected it |
| Endpoint.AcceptedOnlyOnce | czrpc/base/util.hpp:43-58 | every host, colon and port is accepted by the first call and rejected by the second |

## Left out

- Boost.Asio, sockets, resolver and acceptor: steps that succeed, fail or deliver bytes stand for them.
- The races inside `reconnect` and the error path that runs twice: one step replaces a connection, and nothing is claimed about how often the disconnect notification fires.
- Protobuf serialisation and the message registry: messages are byte strings with a name.
- The closure built by `rpc_task::result`, which only selects a constructor by code and message name.
- The id in a timed-out response: the code never sets it, so it is an arbitrary parameter and nothing is claimed about it.
- Whether every callback eventually fires and whether `thread_pool::stop` always returns: the code guarantees neither.
- Frames in `Subscriptions` are whole messages; that bytes carry whole frames in order is proved in `FrameStream`, which `RpcSystem` contains and `Subscriptions` does not.
- Condition-variable fairness: a notify wakes some sleeper, chosen by the event.
- Dispatch of pushes to the subscriber's handlers, the invoker templates, logging, `scope_guard`, `singleton`, `io_service_pool`, `tcp_endpoint`, the accessors of `error_code` and `result`: they would add only easy members.
- Destruction of client objects while handlers are outstanding.
- Strings in `Endpoint` are arrays of characters with a terminating NUL; sharing of string storage between copies is not modelled.
- The iteration order of the topic multimap: equal keys stay together and a new element comes last in its group, where the standard leaves its place open.
- Methods of the tables that only read or assign under the lock have no row of their own.

# Verified model of the GETFILE servers, the shared-memory cache and their clients

The project models four parts of the repository in Dafny and proves what their design is for.

**The proxy and its cache (proj3).** Proxy handlers take a named segment from a bounded pool, create a fresh
shared-memory object under that name, post a request on a message queue and copy a file out of a one-slot buffer;
the cache daemon's receive loop moves requests into a second queue and worker threads serve them. The model is a
transition system with a program counter per thread: one step is one statement that touches shared state, mutexes
and condition variables are explicit wait sets with spurious wake-ups, `pread` returns any positive part of what it
was asked for, chunks are copied byte by byte, and a segment name leads to a *generation* that can be unlinked and
recreated. Handlers, workers, segments, requests and interleavings are unbounded.

| module | content |
|---|---|
| `CacheModel` | threads, shared state, steps, runs |
| `CacheInvariant`, `CachePair`, `CacheFrames` | the safety invariant: pool, names, messages, queue, and one handler with its segment and server |
| `CacheSafety`, `CacheService`, `CacheRuns` | every step keeps it; runs and reachability |
| `CacheTheorems`, `CacheQueues` | responses, handoff, generations, segments; order and bounds of the queues |
| `CacheTermination` | a measure for all configurations, which needs to know nothing about who serves whom |
| `CacheWake`, `CacheLive`, `CacheProgress`, `CacheCompletion` | mutexes, wait sets and wakers; no deadlock; completion |
| `CacheRequested`, `CacheLone`, `CacheOrphan`, `CacheAsleep` | invariants that survive misdirected messages: what is looked up, empty files, a single worker, handlers nobody serves or wakes |
| `CacheAbandoned` | sends cut short, and what they cost |
| `CacheScenarios`, `CacheCrossed`, `CacheServed`, `CacheMisdirected` | runs that go wrong, for every configuration that has them |
| `CacheLimits` | the exact conditions, configuration by configuration, under which the guarantees hold |
| `CacheCode`, `ProxyInit` | the critical sections and `init_proxy` as code on mutable objects |

**The GETFILE pair (proj1/getfile).** `Network` is a socket that delivers arbitrary pieces, `Protocol` the wire
format, `CStrings` C strings with `strcmp` and an in-place `strtok`, `Decimal` the number formats. `GfServer` parses
a request from one or two pieces and `GfServerTheorems` says what it makes of anything a peer may send; `GfClient`,
`GfClientHeader` and `GfClientTheorems` do the same for the reply. `Content` is the sorted table, and `Getfile` joins
handler, server and client from end to end.

**Worker pools (proj4, proj1/multithreadgetfile).** `Minify` and `Download` are transition systems of many workers
on one queue, beside the code of one worker.

**The steque (proj4).** `Steque` is the linked list with its front and back pointers and count, refined to a sequence.

## What the proofs found

Where the code does not do what its design promises, the project states the exact condition under which it does.

- The daemon queues the address of its one message buffer. Workers serve the request they were sent if and only if *one
  buffer suffices*: messages are copied, or there is at most one segment, or at most one request. Otherwise two pointers
  can lead to the same message: one request is then never served, and one segment is served twice. Even so segments are
  conserved, runs are finite, and sleepers on the pool and on the queue are woken.
- The two programs declare the mutexes of the shared struct in opposite order, so the two sides do not exclude each
  other. When one buffer suffices, no byte is lost, repeated or torn even so; but every workload with a request has a run
  that hangs.
- Length 0 stands for "not posted yet", so that a request for an empty file waits for ever.

For every configuration with distinct segment names, a worker, a segment and two bytes in the slot this gives:

| guarantee | holds in all interleavings if and only if |
|---|---|
| every request is answered in the end | there is no request; or no requested file is empty, the layouts agree, one buffer suffices, and no send can be cut short or there is no byte to send |
| every response is right | one buffer suffices, or all requested files are empty |
| no wake-up on a segment is lost | all requested files are empty; or the layouts agree, and one buffer suffices or a single worker serves files of at most one byte |
| a segment is left alone once its tear-down has begun | all requested files are empty; or one buffer suffices, and the layouts agree or no requested file is missing |
| no destroyed mutex or condition variable is used | all requested files are empty; or one buffer suffices, the layouts agree and no requested file is missing |

In the other programs:

- The server passes on a truncated or missing path for most cuts of a request; the paths and cuts it supports are
  exactly those of `RequestReassembly`.
- The client crashes or gives up unless the first piece of a reply covers the header, as `HeaderRoundTrip` says.

## Model

| member | source | states |
|---|---|---|
| CacheTheorems.StepKeeps | proj3/handle_with_cache.c:164-254 | when one buffer suffices: every statement of every handler, worker, receiver and every spurious wake-up keeps the safety invariant, for any struct layout |
| CacheTheorems.RunInv | proj3/simplecached.c:76-185 | when one buffer suffices, the invariant holds in every state of every interleaving of any number of handlers and workers |
| CacheTheorems.ResponsesRefineLookup | proj3/handle_with_cache.c:164-254 | when one buffer suffices: in every reachable state the body sent is a prefix of the requested file, the header is the one an atomic lookup gives and comes before the body, and a returned handler has sent exactly the OK header with the length and the whole file, or, for a missing file and only after giving the segment back, the not-found header |
| CacheTheorems.EmptyFileNeverAnswered | proj3/handle_with_cache.c:204-210 | when one buffer suffices, a request for an empty file is never answered, because length 0 stands for "not posted yet" |
| CacheTheorems.HandoffIsExact | proj3/simplecached.c:162-174 | when one buffer suffices: bytes published equal bytes consumed plus the pending chunk, the pending chunk is the next piece of the file, and the slot is filled only when empty; no mutual exclusion is assumed |
| CacheTheorems.GenerationsAreBound | proj3/simplecached.c:105-125 | when one buffer suffices: though names are unlinked and reused, every worker has mapped the generation created by the sender of its message, and no two workers or handlers share one |
| CacheTheorems.WorkersApart | proj3/simplecached.c:105-125 | two workers never have the same generation mapped |
| CacheTheorems.SegmentsAreConserved | proj3/handle_with_cache.c:105-133 | for every configuration with distinct names, misdirected messages included: every segment name is once in the pool or with exactly one handler; a name in the pool has been unlinked, and a linked name leads to the generation of the one handler that uses it; the counter equals the queue length whenever the lock is free; and the pool-full wait is unreachable |
| CacheTheorems.OutstandingBound | proj3/handle_with_cache.c:167-201 | requests sent and not yet answered with a length never outnumber the segments |
| CacheTheorems.OutstandingNeverExceedSegments | proj3/simplecached.c:271-289 | when one buffer suffices, kernel queue, receiver, daemon queue and unposted workers together hold at most as many messages as there are segments |
| CacheTheorems.QueueNeverFull | proj3/simplecached.c:280-283 | when one buffer suffices, with at most 256 segments the receiver never waits for room |
| CacheQueues.QueuesAreBounded | proj3/simplecached.c:280-285 | for every configuration: never more than ten messages in the kernel queue and 256 in the daemon's, and the counter agrees with the queue whenever the lock is free |
| CacheQueues.ServedInOrder | proj3/simplecached.c:81-86 | for every configuration: workers take the requests in the order in which they were sent, and the others are on their way in that order |
| CacheSafety.HStepKeeps | proj3/handle_with_cache.c:164-254 | every handler step keeps the invariant |
| CacheService.WStepKeeps | proj3/simplecached.c:76-185 | every worker step keeps the invariant |
| CacheService.RStepKeeps | proj3/simplecached.c:271-289 | every receiver step keeps the invariant |
| CacheLive.StepLive | proj3/simplecached.c:81-181 | every step keeps mutex ownership, wait sets and the existence of a waker for every sleeper in order |
| CacheCompletion.NoLostWakeups | proj3/handle_with_cache.c:204-245 | with one layout, when one buffer suffices: a sleeper on a segment whose condition holds always has the other side on its way to signal it, signals after unlock and single signals included |
| CacheCompletion.QueuesAwaited | proj3/simplecached.c:81-89 | for every configuration with distinct names, misdirected messages included: a handler asleep on the pool, a worker on the empty queue or the receiver on the full one whose condition holds always has a thread on its way to signal it |
| CacheCompletion.SharedIsQuiet | proj3/handle_with_cache.c:105-121 | with one struct layout, when one buffer suffices, no worker stores into a generation whose handler has entered the tear-down, found or not found |
| CacheProgress.StuckIsDone | proj3/handle_with_cache.c:164-254 | with one layout, a worker, a segment, no empty file and no send that can be cut short, a state without enabled steps has every request answered |
| CacheTermination.StepDecreases | proj3/simplecached.c:81-183 | for every configuration, misdirected messages included: a measure over messages, stages and bytes left decreases with every step |
| CacheTermination.SpuriousAdds | proj3/simplecached.c:81-84 | a spurious wake-up adds at most one round of a waiting loop |
| CacheTermination.RunLength | proj3/handle_with_cache.c:164-254 | for every configuration: a run is no longer than the initial measure plus four steps a spurious wake-up |
| CacheCompletion.ComesToRest | proj3/handle_with_cache.c:164-254 | for every configuration: from every reachable state, steps of the threads' own lead to a state without enabled steps |
| CacheCompletion.CompletesIffNoEmptyFile | proj3/handle_with_cache.c:204-212 | with one layout, when one buffer suffices: every interleaving ends with every request answered if and only if no requested file is empty |
| CacheCompletion.EveryRequestAnswered | proj3/handle_with_cache.c:217-252 | with one layout, no empty file, and when one buffer suffices, at rest every response equals the atomic lookup of its path |
| CacheCompletion.EveryRunAnswers | proj3/handle_with_cache.c:164-254 | with one layout, no empty file, and when one buffer suffices: every run is finite but for spurious wake-ups, and once it cannot go on each request has got the response of an atomic lookup |
| CacheAbandoned.AbandonedKeeps | proj3/handle_with_cache.c:237-241 | a handler whose send was cut short has announced the file and sent a beginning but not all of it; it keeps its segment's name out of the pool and the data mutex locked |
| CacheAbandoned.StaysAbandoned | proj3/handle_with_cache.c:237-241 | however the threads go on, its client gets nothing more |
| CacheAbandoned.AllSegmentsLost | proj3/handle_with_cache.c:167-172 | once every segment name is held by such a handler, the pool is empty and no other handler has a segment |
| CacheAbandoned.AbandonedIff | proj3/handle_with_cache.c:237-241 | when one buffer suffices, this can happen if and only if sends can be cut short and a requested file has a byte |
| CacheRequested.ReachRequests | proj3/simplecached.c:91-102 | for every configuration: a worker never looks up a file that nobody has requested, whatever its message pointer leads to |
| CacheRequested.ReachEmpty | proj3/handle_with_cache.c:204-207 | for every configuration: when only empty files are requested no length is ever posted, no handler gets past its wait for the length, and no worker sleeps on a segment or reaches a slot |
| CacheLone.ReachLone | proj3/simplecached.c:137-173 | with one layout, one worker and files of at most one byte, misdirected messages included: mutex ownership, wait sets and wakers of every segment are in order, and the worker finds every slot it has reset empty |
| CacheOrphan.StaysOrphan | proj3/simplecached.c:271-284 | however the threads go on, spurious wake-ups included, a handler whose message has been overwritten in the one buffer stays in front of a length nobody posts |
| CacheLimits.BoundIffOneBufferSuffices | proj3/simplecached.c:271-284 | workers always serve the request they were sent if and only if messages are copied or at most one can be outstanding; the source queues the address of one buffer |
| CacheLimits.AliasMisbinds | proj3/simplecached.c:272-284 | with two segments and two requests, queueing the address lets a worker open the wrong generation |
| CacheLimits.AliasMisanswers | proj3/simplecached.c:272-284 | with two segments and two requests for files of different lengths, the first not empty, a response can announce the other file's length |
| CacheLimits.AnswersIff | proj3/simplecached.c:271-284 | for every configuration with two workers or a slot of two bytes: every header and every prefix of a body is right if and only if one buffer suffices or every requested file is empty; with two workers a header announces length 0, with one a header does or a body is too long |
| CacheLimits.NeverExitsIff | proj3/simplecached.c:130-135 | for every configuration: a worker that has just reset a length finds 0 there if and only if one buffer suffices, every requested file is empty or there is one worker |
| CacheLimits.CompletesIff | proj3/handle_with_cache.c:25-32 | for every configuration with a worker, a segment and room for a byte: all interleavings end with every request answered if and only if there is no request, or no requested file is empty, the layouts agree, one buffer suffices, and no send can be cut short or there is no byte to send |
| CacheLimits.OverwrittenHangs | proj3/simplecached.c:271-284 | every configuration in which one buffer does not suffice has a run that comes to rest with a request unanswered, whatever the layout and the files |
| CacheLimits.UnsharedHangs | proj3/handle_with_cache.c:204-245 | under unequal layouts every configuration with a request for a missing or non-empty file has a run that comes to rest unanswered |
| CacheLimits.WakeupIsLost | proj3/handle_with_cache.c:232-245 | it has a run in which the handler sleeps on a segment after its last wake-up, in the data section when the file exists |
| CacheAsleep.StaysForgotten | proj3/handle_with_cache.c:233-235 | however the threads go on, a handler asleep in front of a condition that holds and that nobody will signal again stays asleep, spurious wake-ups aside |
| CacheCrossed.SleepsOnData | proj3/handle_with_cache.c:232-235 | the handler tests the empty slot, the worker publishes and signals inside the same section, then the handler sleeps |
| CacheCrossed.SleepsOnLength | proj3/handle_with_cache.c:204-207 | the same with the file length, whether the file exists or not |
| CacheLimits.AwaitedIff | proj3/handle_with_cache.c:204-245 | for every configuration: no wake-up on a segment is lost if and only if every requested file is empty, or the layouts agree and either one buffer suffices or one worker serves files of at most one byte |
| CacheLimits.QuietIff | proj3/simplecached.c:28-35 | for every configuration: a segment being torn down is left alone if and only if every requested file is empty, or one buffer suffices and the layouts agree or no requested file is missing |
| CacheLimits.PresentIsQuiet | proj3/handle_with_cache.c:105-121 | when one buffer suffices, under any layout no worker stores into a segment being torn down if every requested file exists |
| CacheLimits.StoresAfterDestroy | proj3/handle_with_cache.c:105-121 | under unequal layouts every request for a missing file has a run in which a worker is about to store into the segment being torn down |
| CacheLimits.DestroyedIff | proj3/handle_with_cache.c:105-109 | for every configuration: no worker is about to use a mutex or condition variable that the handler of its segment has destroyed if and only if every requested file is empty, or one buffer suffices, the layouts agree and no requested file is missing |
| CacheLimits.SourceLayout | proj3/simplecached.c:28-35 | with the struct declarations and the queued address of the source: completion exactly without requests; no lost wake-up and no use of a destroyed mutex or condition variable exactly with empty files only; quiescence exactly with these, or at most one segment or request and no missing file; right answers, with a slot of two bytes, exactly with empty files or at most one segment or request |
| CacheCode.SegmentPool.Take | proj3/handle_with_cache.c:171-172 | the pop and decrement on the pool are the two steps of the transition system |
| CacheCode.SegmentPool.Give | proj3/handle_with_cache.c:127-130 | so are the enqueue and increment |
| CacheCode.RequestQueue.Take | proj3/simplecached.c:85-86 | so are a worker's pop and decrement |
| CacheCode.RequestQueue.Put | proj3/simplecached.c:284-285 | so are the receiver's enqueue and increment |
| CacheCode.Segment.Drain | proj3/handle_with_cache.c:236-242 | reading, sending and freeing the slot is exactly the handler's run of steps through its critical section |
| CacheCode.Segment.Fill | proj3/simplecached.c:167-168 | reading the file into the slot and publishing the number of bytes is exactly the worker's run of steps |
| CacheCode.DrainSteps | proj3/handle_with_cache.c:236-242 | from the read of the slot's length the steps send precisely the pending bytes and leave the slot empty |
| CacheCode.FillSteps | proj3/simplecached.c:167-168 | from the `pread` the steps put precisely the next bytes of the file at the front of the slot |
| ProxyInit.InitProxy | proj3/handle_with_cache.c:135-162 | the pool starts with `/sharedmpath` and the numbers from 0 on, in order, and both counters equal its length |
| ProxyInit.PoolIsSound | proj3/handle_with_cache.c:142-157 | the names are pairwise distinct, which is what the protocol needs of its pool |
| CStrings.Tokenizer.Next | proj1/getfile/gfserver.c:192-196 | the in-place `strtok`: returns the next token of the specification, terminates it in the buffer, keeps earlier tokens readable |
| CStrings.NextTokenFinds | proj1/getfile/gfserver.c:192-196 | a token is what stands between delimiters and a delimiter or the end; without one there are only delimiters |
| CStrings.NextTokenIs | proj1/getfile/gfserver.c:192-196 | and whatever stands like that is the token |
| CStrings.StringAt | proj1/getfile/gfserver.c:188-190 | walks a buffer to the NUL and returns the C string there |
| CStrings.StrcmpZero | proj1/getfile/content.c:18-20 | `strcmp` is zero exactly on equal strings |
| CStrings.StrcmpOrders | proj1/getfile/content.c:18-20 | the first byte that differs decides the sign, the end of a string counting as the smallest |
| CStrings.StrcmpFlips | proj1/getfile/content.c:18-20 | swapping the arguments negates it |
| CStrings.StrcmpTransitive | proj1/getfile/content.c:18-20 | it is transitive, strictly when one of the two comparisons is |
| Decimal.ReadPrint | proj1/getfile/gfserver.c:62-63 | reading a printed number gives the number |
| Decimal.PrintDigits | proj1/getfile/gfserver.c:62-63 | the digits are printed from the most significant one on, without a zero in front |
| Decimal.PrintRead | proj1/getfile/gfserver.c:62-63 | and every numeral without a zero in front is what printing its number gives |
| Decimal.AtolPrint | proj1/getfile/gfclient.c:235 | `atol` of a printed length is the length if and only if it is at most LONG_MAX |
| Decimal.AtolReads | proj1/getfile/gfclient.c:235 | `atol` skips blanks, takes a sign, stops behind the digits and saturates at the bounds of a 64-bit `long` |
| Decimal.ReadPadded | proj1/multithreadgetfile/gfclient_download.c:44 | zero padding to six digits loses nothing, also beyond six digits |
| GfServer.Server.Accept | proj1/getfile/gfserver.c:183-260 | two `recv` calls with in-place tokenising decide as the function of the received pieces does, which `DispatchIs` describes |
| GfServerTheorems.DispatchIs | proj1/getfile/gfserver.c:183-260 | for any pieces whatever: the server refuses if and only if the first piece, up to a NUL, is not blanks, GETFILE, at least one blank, GET, and the end or a blank and anything; otherwise it hands over the first word behind GET, or, when the line looks unfinished, waits for a second piece and hands over the first word behind the method in both together |
| GfServerTheorems.LineSplits | proj1/getfile/gfserver.c:192-196 | such a line determines scheme, method and path, and the tokeniser finds them |
| GfServer.Server.Receive | proj1/getfile/gfserver.c:183-190 | one `recv` read back as a C string |
| GfServer.SplitBuffer | proj1/getfile/gfserver.c:192-196 | three `strtok` calls yield the tokens of the specification |
| GfServer.Reassemble | proj1/getfile/gfserver.c:229-243 | `strcpy`, `strcat` and three more `strtok` calls yield the tokens of the concatenation |
| GfServer.SplitPrefix | proj1/getfile/gfserver.c:192-196 | the tokens of every prefix of a client request |
| GfServer.AcceptedPrefix | proj1/getfile/gfserver.c:216-222 | a first piece is accepted exactly from byte 11 on |
| GfServer.ShortPrefix | proj1/getfile/gfserver.c:228 | a second `recv` happens exactly when the first piece ends right before the path or one byte behind it |
| GfServer.RequestReassembly | proj1/getfile/gfserver.c:183-260 | for any path and any segmentation of its request, the handler gets exactly the path if and only if it is non-empty and free of blanks, CR, LF and NUL, and the first piece reaches its end, or ends right before it and the second piece holds all of it |
| GfServer.PathIsClean | proj1/getfile/gfserver.c:192-196 | whatever path reaches the handler is non-empty and free of blanks, CR, LF and NUL |
| GfServer.SendHeader | proj1/getfile/gfserver.c:38-77 | the bytes of each of the three headers, and the abort after the two short ones |
| GfClient.GetStatus | proj1/getfile/gfclient.c:297-315 | the status each status text stands for |
| GfClient.ReadHeader | proj1/getfile/gfclient.c:142-246 | the tokenising of the first piece computes the specified header |
| GfClientHeader.HeaderIs | proj1/getfile/gfclient.c:142-246 | for any first piece whatever: which are rejected, which crash the client, and that the rest are more than ten bytes of a GETFILE header with status OK and a length inside the piece, FILE_NOT_FOUND or ERROR, with the length and the body offset it takes |
| GfClient.ReadLength | proj1/getfile/gfclient.c:223-235 | the length token found by scanning the rest of the string afresh, and the body offset |
| GfClient.GfcRequest.First | proj1/getfile/gfclient.c:142-270 | fields, output and outcome after the first piece |
| GfClient.GfcRequest.Later | proj1/getfile/gfclient.c:276-291 | a later piece is written whole and counted; the transfer ends when the announced length is there |
| GfClient.GfcRequest.Receive | proj1/getfile/gfclient.c:118-294 | the receive loop computes the specified transfer of any sequence of pieces |
| GfClient.GfcRequest.Perform | proj1/getfile/gfclient.c:99-294 | sends exactly the request, then receives |
| GfClientTheorems.HeaderRoundTrip | proj1/getfile/gfclient.c:142-249 | for every length and body, a first piece yields the printed length and the offset 15 plus digits exactly when it covers the header; up to ten bytes are rejected, anything in between dereferences NULL or underflows |
| GfClientTheorems.BodyArrives | proj1/getfile/gfclient.c:276-291 | after the header the output grows by the concatenation of the pieces, and the loop stops with the last byte |
| GfClientTheorems.BodyStops | proj1/getfile/gfclient.c:276-291 | for any pieces behind the header, the client stops with the first one that completes the announced length exactly, and leaves the rest unread |
| GfClientTheorems.BodyMisses | proj1/getfile/gfclient.c:276-294 | when none does, it writes all there is, reports too little as a failure and takes too much for a success |
| GfClientTheorems.ResponseArrives | proj1/getfile/gfclient.c:118-294 | for every length up to LONG_MAX, every body of at most that length and every segmentation, the result is 0 if and only if the first piece covers the header and the whole body arrives; the output is then exactly the body; a first piece of up to ten bytes is rejected, a longer one that does not cover the header crashes the client |
| GfClientTheorems.StatusArrives | proj1/getfile/gfclient.c:182-203 | an absent file or an error is recognised exactly when the first piece holds the whole status word, whatever arrives after it |
| GfClientTheorems.NotFoundArrives | proj1/getfile/gfclient.c:184-192 | the FILE_NOT_FOUND reply yields that status, result 0 and no output, exactly when the first piece has at least 22 bytes |
| GfClientTheorems.ErrorArrives | proj1/getfile/gfclient.c:193-201 | the ERROR reply yields that status and result 0 exactly when the first piece has at least 13 bytes |
| Content.ContentTable.Load | proj1/getfile/content.c:32-54 | the growth loop never writes outside the array and keeps earlier rows; each row stores what opening its second field gives, under its first; it fails exactly when some file cannot be opened |
| Content.ContentTable.Init | proj1/getfile/content.c:32-61 | afterwards the array is sorted and holds the rows of the list, each with the descriptor of its own file |
| Content.RowIsRead | proj1/getfile/content.c:36-41 | a line of a key, a blank or tab, a path, and nothing or a separator and anything is read as that key and that path |
| Content.WrittenRow | proj1/getfile/content.c:34-41 | a row written as key, separator, path, anything behind a separator, and a line end is such a line |
| Content.KeyIsRead | proj1/getfile/content.c:36-41 | a line without a separator is a key without a path |
| Content.Sort | proj1/getfile/content.c:58 | a sort in place: ascending by `strcmp`, and a permutation |
| Content.Sift | proj1/getfile/content.c:58 | one item moved to its place |
| Content.ContentTable.Get | proj1/getfile/content.c:63-79 | the bisection terminates and returns a descriptor stored under the key, or -1 exactly when there is none |
| Content.Bisect | proj1/getfile/content.c:70-76 | one comparison rules out everything on its other side, or finds the key |
| Content.LookupAgrees | proj1/getfile/content.c:63-79 | any correct lookup agrees with the linear scan about presence, and on the descriptor when no key is listed twice |
| Getfile.SendFile | proj1/getfile/handler.c:28-46 | returns the length of the file with all of it sent if and only if every `pread` up to the end delivers something that fits and every `write` takes all of it; otherwise -1, an aborted connection, and exactly what had passed before the first failure |
| Getfile.HealthyIff | proj1/getfile/handler.c:28-46 | the whole file passes if and only if no chunk before its end fails |
| Getfile.HandlerGet | proj1/getfile/handler.c:13-47 | header and file for a listed path, as far as the devices let it pass; the not-found reply otherwise |
| Getfile.ServeConnection | proj1/getfile/gfserver.c:163-278 | one round of the accept loop answers as the decision on the received pieces demands, with the whole file on healthy devices |
| Getfile.ReplyDelivered | proj1/getfile/gfclient.c:118-294 | any beginning of what a server puts on the wire for a file becomes that much of the file, with success exactly when it is all of it; the other reply becomes FILE_NOT_FOUND |
| Getfile.EndToEnd | proj1/getfile/gfclient.c:99-294 | for every table, clean path, supported cut of the request and however much of the reply arrives in whatever pieces, once the first one covers the header: exactly that much of the stored file, result 0 exactly when it is the whole file, a negative one when the connection ends before; FILE_NOT_FOUND without a body when no row has the key; on healthy devices the server sends the whole file |
| Getfile.HealthyEndToEnd | proj1/getfile/gfclient.c:99-294 | for a listed path, healthy devices and a reply that arrives whole, the client returns 0 and has written exactly the file of a row with that path |
| Steque.Steque.constructor | proj4/steque.c:5-9 | an empty steque |
| Steque.Steque.Enqueue | proj4/steque.c:11-25 | appends, linking one fresh node |
| Steque.Steque.Push | proj4/steque.c:27-39 | prepends one fresh node |
| Steque.Steque.Pop | proj4/steque.c:49-69 | removes and returns the front item; underflow exits |
| Steque.Steque.Cycle | proj4/steque.c:71-79 | rotates by relinking the same nodes, the one-element self-loop included |
| Steque.Steque.Front | proj4/steque.c:81-89 | returns the front item; underflow exits |
| Steque.Steque.Size | proj4/steque.c:41-43 | the number of items |
| Steque.Steque.IsEmpty | proj4/steque.c:45-47 | whether there are none |
| Steque.Steque.Destroy | proj4/steque.c:91-94 | terminates with an empty steque |
| Steque.CycledSplits | proj4/steque.c:71-79 | after n cycles the first n items have moved to the back |
| Steque.FullCycle | proj4/steque.c:71-79 | as many cycles as items restore the order |
| Minify.LoadRequests | proj4/minifyjpeg_main.c:20-39 | the k-th request has the word 2k as its input and the word 2k + 1 as its output; a last single word leaves a stale output name |
| Minify.WorkerMain | proj4/minifyjpeg_main.c:97-123 | one worker alone computes the sequential program |
| Minify.StepKeeps | proj4/minifyjpeg_main.c:97-123 | every statement of every worker keeps the invariant on queue, lock, buffers and files |
| Minify.NoUnderflow | proj4/steque.c:53-57 | no worker ever pops an empty queue, whatever the files are named |
| Minify.CalledOnce | proj4/minifyjpeg_main.c:104-112 | in every run, whatever the files are named, each request is handed to the remote call at most once, and has been exactly when it is past that call |
| Minify.RestIsDone | proj4/minifyjpeg_main.c:103-120 | a state without enabled steps has every worker finished, or the process has exited |
| Minify.RunLength | proj4/minifyjpeg_main.c:97-123 | a run takes at most nine steps a request, three a worker and one more |
| Minify.SequentialFiles | proj4/minifyjpeg_main.c:103-120 | the sequential program leaves each output with the call's result for its input, every other file as it was, or stops at a missing input |
| Minify.ConcurrentIsSequential | proj4/minifyjpeg_main.c:178-191 | with outputs distinct and disjoint from inputs, every finished run has drained the queue and left exactly the sequential program's files if and only if there is a worker or nothing to do, and every input exists |
| Minify.WorkloadIsMinified | proj4/minifyjpeg_main.c:20-123 | from the workload to the disk, whatever the schedule: the file named by each second word ends up with what the remote call makes of the file named by the word before it, if it can be written, and no other file changes |
| Download.EnqueueRequests | proj1/multithreadgetfile/gfclient_download.c:247-256 | the queue holds the workload in order; it fails exactly on a path over 256 characters |
| Download.Client.Take | proj1/multithreadgetfile/gfclient_download.c:126-144 | a worker's round under the lock: the front request and its name, and the counter one up |
| Download.LocalPathIs | proj1/multithreadgetfile/gfclient_download.c:41-45 | the local name is the path without its first character, a dash, and the counter in six digits, or in as many as it needs |
| Download.LastDash | proj1/multithreadgetfile/gfclient_download.c:44 | a string of digits behind a dash is cut off at the last dash |
| Download.LocalPathsDiffer | proj1/multithreadgetfile/gfclient_download.c:41-45 | names with different counters differ, for all paths and unbounded counters |
| Download.QueueHolds | proj1/multithreadgetfile/gfclient_download.c:121-131 | a worker with quota left always finds a request |
| Download.QuotaKept | proj1/multithreadgetfile/gfclient_download.c:121-155 | every step keeps each worker within its quota and out of the early exit |
| Download.Quotas | proj1/multithreadgetfile/gfclient_download.c:247-275 | in every interleaving of the created workers the empty-queue break and the underflow are unreachable; once all have stopped, each has made exactly its quota of pops and exactly the missing workers' quotas remain |
| Download.NamesAreUnique | proj1/multithreadgetfile/gfclient_download.c:126-155 | all names given in any interleaving differ, and the j-th request always gets the j-th name |
| Download.RestIsDone | proj1/multithreadgetfile/gfclient_download.c:121-155 | a state without enabled steps has every worker finished |
| Download.RunLength | proj1/multithreadgetfile/gfclient_download.c:121-155 | a run takes at most nine steps a request of a worker's quota and eight more a worker |

## Left out

- Integer widths: file lengths in shared memory are `int`; files are taken to be shorter than 2^31 bytes. Byte totals in
  the client are unbounded. `atol` is modelled with its saturation and the conversion to `size_t`.
- CacheModel: works on values; the updates in place are covered by `CacheCode` for the critical sections, not for the
  whole of `handle_with_cache` and `cache_worker`.
- CacheModel.Next: error returns and retry loops of `mq_open`, `shm_open`, `mmap` and `mq_receive` are steps that wait
  until they can succeed; `munmap`, `close` and the allocation of segments beyond their name have no step.
- CacheModel.Config: the files do not change while requests run, and `pread` in the cache worker neither fails nor
  returns 0 before the end of the file. The slot holds at least one byte.
- CacheTheorems.StepKeeps: when one buffer does not suffice, messages reach the wrong worker and the invariant on pairs
  of handler and worker fails. What holds then is proved separately: `SegmentsAreConserved`, `QueuesAwaited`,
  `RunLength`, `ReachRequests`, and the conditions in `CacheLimits`, which cover these configurations.
- CacheModel.WLenMove: the daemon's exit when a length just reset is not 0 is not a step; `NeverExitsIff` says when it
  cannot happen, and every condition in `CacheLimits` that promises something implies that.
- CacheLimits.CompletesIff: configurations without a worker, a segment or room for a byte are excluded.
- CacheLimits.AnswersIff: a single worker with a slot of one byte is excluded; there the answer depends on the contents
  of the files.
- CacheLimits.AliasMisbinds: the buffer whose address is queued is one slot that lives for ever; that it is out of scope
  after each round of the loop is not modelled.
- Getfile.HandlerGet: the header is always sent whole; only the chunks can be cut.
- Network.Socket: an error return of `recv` is not modelled; a closed connection is.
- GfClient.GfcRequest: the request object is not freed while the caller still reads its status. The header callback is
  not modelled. A body length that underflows counts as a crash.
- GfServer.Server: the receive buffer is one byte longer than in the source, so that what was received is always
  followed by NUL; overruns of fixed buffers are not modelled.
- Content.Sort: `qsort` is a library function; an insertion sort in place stands for it.
- Content.ContentTable.Load: lines longer than the key buffer arrive as `fgets` splits them; a line never starts with NUL.
  Descriptors are not closed, and the file offset is not modelled because every read gives its own.
- Getfile.SendFile: reads the file as it was when its length was taken.
- Minify: the remote call is a total function of its input. A file is truncated and written in two steps, not byte by
  byte. Failing allocations are not modelled.
- Download: the transfer itself and the removal of a failed download's file have no effect on the shared state. NULL
  requests are not modelled; the workload has none.
- Bytes are modelled as characters.
- proj1/client.c, proj1/server.c, proj1/transferfile: single copy loops that would only add easy members.
- proj1/multithreadgetfile/handler.c, gfserver_main.c: its worker leaves after a missing file; the chunk loop is that of
  the single-threaded handler. workload.c is plain indexing.
- proj3/handle_with_curl.c, webproxy.c, webproxy_curl.c: wrapping of libcurl and startup. simplecache.c and the server
  library of proj3 are not part of this model: the cache directory is a map, `gfs_send` sends all or part of a chunk.
- proj4 RPC stubs, server and ImageMagick code: generated code or wrappers over libraries that are not part of this model.
- Sockets, DNS, option parsing, signal handlers, printing, directories: input and output plumbing.

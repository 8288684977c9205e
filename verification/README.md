# Models and proofs for goico

This project models six parts of the repository and proves what they are for.

| part | files | form |
|---|---|---|
| broadcaster and its status barrier | `StatusBarrier`, `Broadcaster*` | transition system over any number of threads and listeners |
| cache over the broadcaster | `Cache` | transition system on top of the broadcaster's |
| `OnceDisposable` | `Once` | transition system over any number of calls |
| `LastLines` | `Lines`, `WhiteSpace`, `LastLines` | imperative reader against a forward specification |
| table keys, store and tables | `ByteStrings`, `Keys`, `Table`, `TableRefinement` | imperative classes against a specification, and a refinement over histories |
| environment layering | `Env`, `EnvLayers` | imperative class against a specification, and a precedence lookup |

**Broadcaster.** A state (`Broadcaster.State`) holds the barrier, the channel of capacity one, the listener map, the
wait group, the cancel state, a program counter for every thread, and history variables. `Broadcaster.Code` gives the
instruction at each program counter: one lock, unlock, send, receive, close, map operation, cancel or timer. Which thread
goes next, which timer fires, when the parent context is cancelled and which key `Range` yields next is open. `Range`
yields a key at most once, yields every key that is present all along, and may yield a key that has just been deleted.
The read lock taken by `Write` is handed over to the goroutine it spawns. A run (`Runs`) excludes one thing: a `Start`
that finds the broadcaster stopped by an earlier successful `Stop`. `StartSafeIff` shows that this exclusion is exactly
the condition for safety. `BroadcasterCode` tabulates the code, `BroadcasterLocks`, `BroadcasterSafety`,
`BroadcasterPresence`, `BroadcasterService`, `BroadcasterOrder`, `BroadcasterDelivery`, `BroadcasterQuiescence` and
`BroadcasterProgress` each keep one invariant over every step, `BroadcasterTheorems` draws the conclusions,
`BroadcasterCalls` says what each call achieves and what its answer means, `BroadcasterServed` that every message is
delivered where no timer fires, and `BroadcasterRestart` has the run that restarts.

**LastLines.** `Lines.Split` is a forward split on CRLF, LF and lone CR, and `SplitIs` with `SplitUnique` show that it is
the only way to cut a text into such lines. `Lines.Asked` says which lines are wanted. `LastLines.LastLines` is the
chunked backward reader with its cursor, buffer, current line and accumulated lines, for every buffer size from one up; it
returns `Asked` of the file's text, or the error of a missing file or of an operation that fails. Bytes become code points one by one, as `string(buffer[i])` does.

**Tables.** Several tables share one flat store. `Keys` has the in-place encoders and the in-place carry of
`keyUpperBound`; `Table` the store with half-open iteration and the table operations; `TableRefinement` shows that the
tables behave like separate maps after every history exactly when no table's prefix starts another's. Any operation of
the store may fail; a failing one changes nothing.

**Environment.** `Env.Process` holds the environment and performs the layered loads; `EnvLayers` shows that the result is
a lookup by precedence.

## Where code and documentation differ

- `pkg/env/args.go:8` speaks of `-env:key=value`; the code accepts `--env:` and `-e:`. The model follows the code.
- `pkg/env/env.go:29` refers to the dotenv convention, in which `.env.<environment>.local` has precedence over
  `.env.local`. The code loads `.env.local` later with override, so it wins. `EnvLayers.LocalOrder` says exactly for which
  variables the outcome of the load is that of the convention.
- The comments at `pkg/env/env.go:58` and `pkg/env/env.go:63` name other files than the lines below them load.

## Model

| member | source | states |
|---|---|---|
| BroadcasterTheorems.NeverPanics | pkg/broadcaster/broadcaster.go:47-199 | in every reachable state of every interleaving no possible step sends on or closes a closed channel, of the broadcaster or of a listener, or misuses a mutex or the wait group |
| BroadcasterTheorems.StartSafeIff | pkg/broadcaster/broadcaster.go:47-74 | a `Start` that finds the flag down leads to no panic in any continuation if and only if no `Stop` has succeeded before |
| BroadcasterRestart.RestartPanics | pkg/broadcaster/broadcaster.go:47-92 | the failing half has an input: Start, Stop and Start again reach a state where the second `Start` finds the flag down after a successful `Stop`, and from there some run panics |
| BroadcasterTheorems.InvApply | pkg/broadcaster/broadcaster.go:47-199 | every step of every thread, every cancellation and every receive keeps the seven invariants together and does not panic |
| BroadcasterTheorems.Integrity | pkg/broadcaster/broadcaster.go:58-168 | accepted messages are the received ones followed by the buffered one, at most one; none is accepted twice; a write is admitted exactly when its call is past the check and has not been refused, so also when it has returned nil; every admitted write is in exactly one of pending, sent, timed out; there is at most one worker |
| BroadcasterTheorems.InOrder | pkg/broadcaster/broadcaster.go:62-70 | a listener gets a duplicate-free subsequence of the messages the worker received, in that order |
| BroadcasterTheorems.SameOrder | pkg/broadcaster/broadcaster.go:62-70 | any two listeners agree on the order of any two messages both got |
| BroadcasterTheorems.Delivery | pkg/broadcaster/broadcaster.go:58-70 | a listener in the map throughout a finished `Range` got exactly one attempt for its message, and it was delivered or timed out, never refused; one out of the map since before, or put in after, got none; a cut `Range` means cancellation; no listener gets two attempts on one message |
| BroadcasterTheorems.StopIsFinal | pkg/broadcaster/broadcaster.go:76-92 | once a `Stop` has returned nil, in every later state the worker is gone, nothing is in flight, the listener map is empty and every listener ever returned by `Subscribe` has a closed channel |
| BroadcasterTheorems.LateCalls | pkg/broadcaster/broadcaster.go:76-168 | every call that begins after a successful `Stop` and returns, returns `ErrStopped`; `IsStopped` returns true |
| BroadcasterTheorems.Progress | pkg/broadcaster/broadcaster.go:54-92 | without new calls a run has at most as many steps as a rank of its first state; and while a thread is not at rest some thread can take a step that is no restart, or a `Start` call waits to restart a stopped broadcaster |
| BroadcasterTheorems.AllFinish | pkg/broadcaster/broadcaster.go:76-168 | when a run without new calls cannot be continued, every call has returned, every goroutine of a `Write` has ended and no message is left for a living worker, unless a `Start` call waits to restart a stopped broadcaster |
| BroadcasterServed.Served | pkg/broadcaster/broadcaster.go:54-71 | in a run from the start without timers and without cancellation, once the users have received all that was sent to them and no thread can go on, every admitted write has been received by the worker, its `Range` has ended, and every listener in the map throughout that `Range` has been sent it and its user has received it |
| BroadcasterServed.Settles | pkg/broadcaster/broadcaster.go:54-71 | such a state is always within reach: from every reachable state, without new calls and without timers, a bounded number of steps and receives leads to one where nothing is left to receive and no thread can go on |
| BroadcasterServed.Delivered | pkg/broadcaster/broadcaster.go:58-70 | in a run from the start in which no timer fires, a listener in the map throughout a finished `Range` has the message of that `Range` among those it got |
| BroadcasterServed.RoundsEnd | pkg/broadcaster/broadcaster.go:54-71 | without timers: when the listeners' channels are empty and no thread can go on, cancelled or not, the worker is not inside a `Range` |
| BroadcasterServed.CancelEnds | pkg/broadcaster/broadcaster.go:61-69 | after cancellation a listener gets at most the one attempt that is under way, and keeps the ones it had |
| BroadcasterCalls.UnsubscribeWorks | pkg/broadcaster/broadcaster.go:116-127 | an `Unsubscribe` of an existing listener that has returned returned `ErrStopped`, or nil with the listener out of the map; if it took the listener out itself, the listener's flag is down and its channel closed |
| BroadcasterCalls.OutForever | pkg/broadcaster/broadcaster.go:61-127 | a listener out of the map is never in it again, gets no attempt on any message received from then on, and once stopped stays stopped with its channel closed |
| BroadcasterCalls.IsSubscribedAnswers | pkg/broadcaster/broadcaster.go:129-137 | an `IsSubscribed` call on a listener that is in the map from its start to its return answers true, on one out of the map false, or it is refused |
| BroadcasterCalls.SubscribeWorks | pkg/broadcaster/broadcaster.go:94-114 | a `Subscribe` that has returned was refused or returned a new listener; it is in the map unless an `Unsubscribe` of it, or a `Stop`, has taken it out |
| BroadcasterCalls.NotRefused | pkg/broadcaster/broadcaster.go:47-168 | a call that begins on a started broadcaster and returns before any `Stop` has succeeded is not refused, and `IsStopped` answers false |
| BroadcasterCalls.StartWorks | pkg/broadcaster/broadcaster.go:47-74 | once a `Start` has returned the broadcaster is started, or a `Stop` has succeeded since |
| BroadcasterCalls.StopSucceeds | pkg/broadcaster/broadcaster.go:76-92 | a `Stop` has succeeded exactly when some `Stop` call returns nil, so a `Stop` of a started broadcaster is refused only if another one stops it |
| BroadcasterCalls.WriteSyncWaits | pkg/broadcaster/broadcaster.go:156-168 | a `WriteSync` that has returned nil has sent its message, or its timer has fired |
| BroadcasterCalls.WaitsFor | pkg/broadcaster/statusBarrier.go:19-45 | a call gets in exactly when no `Start` or `Stop` has announced itself, whoever else is inside; a `Start` or `Stop` exactly when those inside have left; a `Write` that is in never waits |
| BroadcasterCalls.AnswerKinds | pkg/broadcaster/broadcaster.go:47-185 | what each call can return, and which can return `ErrStopped` |
| BroadcasterCalls.NoMisuse | pkg/broadcaster/broadcaster.go:47-199 | who is about to send on or close a channel finds it open, who is about to release a lock holds it, and the worker about to leave is counted |
| BroadcasterProgress.RankApply | pkg/broadcaster/broadcaster.go:47-199 | every step other than a new call, timeouts included, strictly lowers the rank |
| BroadcasterProgress.NoDeadlock | pkg/broadcaster/broadcaster.go:76-92 | a thread that is not at rest never leaves all threads blocked: locks are taken broadcaster first, listener second, and the worker never takes the broadcaster's; without cancellation and with the users receiving no timer is needed for it |
| BroadcasterLocks.LocksStep | pkg/broadcaster/statusBarrier.go:19-45 | every step keeps mutual exclusion on every barrier: the readers and the writer are exactly the threads whose program counter says so, and an owner is alone; a handed-over read lock is the goroutine's |
| BroadcasterSafety.SafeApply | pkg/broadcaster/broadcaster.go:76-199 | every step keeps a channel open as long as its flag is up, and the worker, the wait group and the flag in step |
| BroadcasterPresence.PresenceApply | pkg/broadcaster/broadcaster.go:76-127 | every step keeps: a listener in the map is stopped only while Stop is at it, and one that has refused a write is out of the map |
| BroadcasterService.ServeApply | pkg/broadcaster/broadcaster.go:47-168 | every step keeps: a worker that leaves was cancelled, a goroutine of a `Write` has a returned `Write`, a returned `Start` has started the broadcaster or it was stopped since, the answers are of their kinds, and who took a listener out is the `Unsubscribe` of it or a `Stop` |
| BroadcasterOrder.OrderApply | pkg/broadcaster/broadcaster.go:139-168 | every step keeps the account of admitted, pending, sent and timed-out writes |
| BroadcasterDelivery.DeliveryApply | pkg/broadcaster/broadcaster.go:58-70 | every step keeps the account of attempts per listener and received message |
| BroadcasterQuiescence.StopApply | pkg/broadcaster/broadcaster.go:76-92 | every step keeps what the `Range` of `Stop` has removed removed, and a listener out of the map stopped |
| Cache.GetAgrees | pkg/service/grpc/cache/cache.go:59-102 | `Get` answers with what the last mutation of the key left, in the order in which the mutations reached the map, and with nothing without one; every mutator that has returned is in that order once, also when it returned `ErrStopped` |
| Cache.Linearized | pkg/service/grpc/cache/cache.go:59-93 | a mutation that has returned comes before one that begins later |
| Cache.EventsReceived | pkg/service/grpc/cache/cache.go:59-93 | an admitted event bears the cache's name, is an addition, an update or a deletion exactly when the mutator that brought it is `AddOrUpdate`, `Update` or `Delete`, and that mutator has changed the map before; a listener gets at most as many events of a kind as there are mutators of that sort whose event was admitted, and its kinds are a sub-multiset of those admitted |
| Cache.Published | pkg/service/grpc/cache/cache.go:59-93 | with publishing, a mutator has returned nil if and only if its event was admitted, and `ErrStopped` otherwise; without publishing it returns nil |
| Cache.NeverPanics | pkg/service/grpc/cache/cache.go:18-57 | the broadcaster inside a cache never panics |
| Cache.NoRestart | pkg/service/grpc/cache/cache.go:18-35 | a cache never restarts a stopped broadcaster, so its runs need no exclusion |
| Once.OnceOnly | pkg/syncutil/once.go:28-59 | for any number of calls the do-function starts at most once, the dispose-function at most once, they do not overlap, and the do-function never starts after the dispose-function has |
| Once.Returned | pkg/syncutil/once.go:28-59 | `Dispose` returns the error of the completed disposal; a `Do` past its entry check returns the error of the completed run, or nil with the object disposed and the do-function never started |
| Once.TooLate | pkg/syncutil/once.go:29-31 | a `Do` that begins when the object is disposed returns "already disposed", and does not get to the lock |
| Once.RefusedIff | pkg/syncutil/once.go:28-45 | a `Do` returns "already disposed" if and only if the object is disposed at its first step, whatever happens later |
| Once.NeverBlocks | pkg/syncutil/once.go:28-59 | a `Do` that begins when the object is done or disposed, and a `Dispose` that begins when it is disposed, can always take its next step, and neither touches the lock nor runs a function |
| Once.DisposedForever | pkg/syncutil/once.go:28-45 | once the object is disposed neither function ever starts again |
| Once.StoredOnce | pkg/syncutil/gvalue.go:17-28 | each error register is stored to at most once, so the atomic value never sees two dynamic types, and holds the error of its run |
| Once.NoDeadlock | pkg/syncutil/once.go:28-59 | while a call has not returned some call can take a step |
| Once.CallBound | pkg/syncutil/once.go:28-59 | a call takes at most twelve steps, the start and end of its function included, whatever the others do |
| Once.AllReturn | pkg/syncutil/once.go:28-59 | once no call begins only finitely many steps are left, and when none is possible every call has returned |
| Lines.SplitIs | pkg/ioutil/ioutil.go:149-175 | the split consists of lines that are text without breaks and one break, cuts no CRLF, and is the text when put together |
| Lines.SplitUnique | pkg/ioutil/ioutil.go:149-175 | it is the only such split |
| Lines.AskedPlain | pkg/ioutil/ioutil.go:138-192 | with both flags off the result is the last min(nlines, L) of L terminated lines; an unterminated tail is dropped when there is a line and the sole result when there is none |
| Lines.AskedSize | pkg/ioutil/ioutil.go:166-168 | the result has min(nlines, kept) entries, and all kept ones for nlines not positive |
| Lines.AskedSuffix | pkg/ioutil/ioutil.go:138-192 | for a file that ends with a break the result put together is the end of the file, and the whole of it for nlines not positive |
| Lines.AskedTrimmed | pkg/ioutil/ioutil.go:165-178 | with noincludecrlf the entries are those without it, each trimmed |
| Lines.AskedNoBreaks | pkg/ioutil/ioutil.go:292-297 | so no entry has a line break left in it |
| Lines.AskedFiltered | pkg/ioutil/ioutil.go:154-164 | with skipEmpty the lines to choose from are the first line of the file and every later one that is not blank, in order, and the result is the last of them; a file without a break is not affected |
| LastLines.LastLines | pkg/ioutil/ioutil.go:117-193 | for every file and every buffer size from one up: the result is the last kept lines of the forward split, filtered and trimmed as asked, and is returned only if opening, `Stat` and the seek and read of every chunk succeeded; the only errors are a missing file and operations that fail by themselves, so no seek leaves the file and no read meets its end; the reads tile the end of the file without gap or overlap, all of it unless enough lines were found |
| LastLines.ScanBack | pkg/ioutil/ioutil.go:133-192 | the loop over the buffers of the open file |
| LastLines.ReadAt | pkg/ioutil/ioutil.go:140-147 | inside the file a seek and a read fill the buffer with the bytes at that place |
| LastLines.ScanBuffer | pkg/ioutil/ioutil.go:148-175 | going back over one buffer extends what is known about the text after it to the text including it, wherever the buffer cuts lines or a CRLF |
| LastLines.ScanBreak | pkg/ioutil/ioutil.go:150-172 | a break completes the current line, which is dropped when it is the unterminated tail or, if so asked, blank |
| LastLines.ScanJoin | pkg/ioutil/ioutil.go:153-174 | a character that is no break, or a CR in front of a bare LF, belongs to the current line |
| LastLines.ScanEnough | pkg/ioutil/ioutil.go:165-169 | breaking off as soon as enough lines are collected gives the same result as reading on |
| LastLines.ScanEnd | pkg/ioutil/ioutil.go:176-182 | at the start of the file what is left is its first line, kept without a test for blankness |
| WhiteSpace.TrimSpaceIs | pkg/ioutil/ioutil.go:292-297 | trimming takes white space, and all of it, off both ends and nothing else |
| Keys.CopyTo | pkg/database/table.go:139-161 | a copy at an offset takes what fits and leaves the rest |
| Keys.Key.Encode | pkg/database/table.go:139-168 | the copies fill exactly the computed length with version, tenant, table and id |
| Keys.Key.EncodePrefix | pkg/database/table.go:152-174 | the copies fill exactly the computed length with version, tenant and table |
| Keys.EncodingKeepsOrder | pkg/database/table.go:130-174 | for one table encoding is injective and order-preserving in the id, and starts with the encoded prefix |
| Keys.KeyUpperBound | pkg/database/table.go:90-100 | the in-place count with carry computes the bound, nil for all-0xFF and empty prefixes |
| Keys.PrefixInterval | pkg/database/table.go:90-107 | a key starts with a prefix if and only if it is not below the prefix and, where there is an upper bound, below that bound |
| Table.ScanBounds | pkg/database/table.go:102-114 | the bounds given to the iterator select exactly the keys with the table's prefix |
| Table.DecodedIs | pkg/database/table.go:115-127 | decoding a scan gives every value decoded, in order, or the error of the first value that has one |
| Table.JoinedIs | pkg/database/table.go:61-128 | the four outcomes of a read that is decoded and closed |
| Table.Table.Add | pkg/database/table.go:38-45 | the store after it; a marshalling or store error is returned and changes nothing |
| Table.Table.Update | pkg/database/table.go:47-54 | the same as adding |
| Table.Table.Delete | pkg/database/table.go:56-59 | the one key is gone, nothing else changed; a store error is returned and changes nothing |
| Table.Table.Get | pkg/database/table.go:61-82 | the decoded value, nothing for a missing key, the store error, or the errors of decoding and closing joined in this order |
| Table.Table.All | pkg/database/table.go:84-128 | the decoded values of all keys with the table's prefix in key order, the error of making the iterator, or the first decoding error and the error of closing joined in this order |
| TableRefinement.Refines | pkg/database/table.go:38-128 | after every history over tables none of whose prefixes starts another, and with reading inverse to writing, `Get` returns the latest live value or nothing and `All` every live value of that table once, in byte order of the ids |
| TableRefinement.GetLatest | pkg/database/table.go:38-82 | after such a history `Get` of an id gives the value of the latest `Add` or `Update` whose value was marshalled to that id, nothing if a `Delete` of it came later, and nothing if there was no such operation |
| TableRefinement.AllLatest | pkg/database/table.go:84-128 | and `All` lists what `Get` gives for every id that has a value, once each, in byte order of the ids |
| TableRefinement.RefinesIff | pkg/database/table.go:38-174 | the tables behave like separate maps after every history if and only if no prefix starts another |
| TableRefinement.IsolatedIff | pkg/database/table.go:84-174 | keys of one table stay out of another's scan, and the keys of the two never coincide, if and only if neither prefix starts the other |
| TableRefinement.Interferes | pkg/database/table.go:38-128 | otherwise a single write to the one table makes the other answer wrongly |
| TableRefinement.SharedKeys | pkg/database/table.go:130-150 | two different tables that share every key |
| Env.SplitAtEqualsIs | pkg/env/args.go:30-33 | the argument is cut at its first `=`, and not at all without one |
| Env.Parse | pkg/env/args.go:25-46 | the loop over the arguments computes the parsed map |
| Env.ParsedFrom | pkg/env/args.go:25-46 | a variable has the value of the last argument that is `--env:` or `-e:`, its name, `=` and that value, and none without such an argument |
| Env.AssignmentIs | pkg/env/args.go:28-43 | an argument sets a variable to a value if and only if it has one of these two forms, the name having no `=` in it |
| Env.ChosenIs | pkg/env/env.go:38-45 | `APP_ENV` absent or blank gives development; development, production and test give themselves; anything else is refused |
| Env.Process.SetEnvs | pkg/env/args.go:13-23 | in whatever order the map is walked all variables are set, or it fails if and only if one cannot be set, having set only parsed ones |
| Env.Process.SetAll | pkg/env/env.go:76-82 | a file's variables are set in whatever order, replacing only when told to |
| Env.Process.LoadFiles | pkg/env/env.go:76-88 | the files before the first one that cannot be read are loaded, each from the directory current at that moment; success if and only if there is no such file |
| Env.ReadableAt | pkg/env/env.go:76-88 | that first file: all before it can be read in the environment the earlier ones leave, and it cannot |
| Env.Process.Load | pkg/env/env.go:31-74 | the environment and all three results, error cases included, for the environment chosen by `APP_ENV` (`Env.ChosenIs`) and the files planned for it (`EnvLayers.LoadedFor`) |
| EnvLayers.LoadIsLookup | pkg/env/env.go:46-71 | any sequence of replacing and filling loads equals a lookup by precedence in the layers it builds, each read from the directory current at its stage |
| EnvLayers.Layered | pkg/env/env.go:31-74 | if no stage before the last moves the directory, every variable has the first value among `.env.local` unless testing, `.env.<environment>.local`, the last matching argument, the prior environment, `.env.<environment>`, `.env.<name>` and `.env`; something was loaded if and only if one of these files exists |
| EnvLayers.LoadedFor | pkg/env/env.go:31-74 | the same from the variables alone: with the environment that `APP_ENV` names after the arguments, or development without one, and the directory that `basedir` names or `./`, every variable has the first value among the seven layers, named by file |
| EnvLayers.PrecedenceIff | pkg/env/env.go:31-88 | that precedence holds for every variable, whatever other directories contain, if and only if no stage before the last moves the directory: a planned file that sets `basedir`, where its value takes effect, sets it to the directory it is in |
| EnvLayers.DirMoves | pkg/env/env.go:76-82 | a case where it fails: a local file sets `basedir`, and `.env` beside it is not read |
| EnvLayers.DefaultDir | pkg/env/env.go:76-82 | a case where it holds although a file sets `basedir`: a default where it is set already |
| EnvLayers.LocalOrder | pkg/env/env.go:46-56 | what is loaded for a variable agrees with the order that puts `.env.<environment>.local` before `.env.local` if and only if the two files do not both set it, differently |
| EnvLayers.LocalOrderDiffers | pkg/env/env.go:46-56 | a case where they differ |

## Left out

- The broadcaster, its barrier, the cache and `OnceDisposable` are values changed by atomic steps and not classes: their properties are about all interleavings of many threads, which a sequential method contract cannot state. A mutex, a channel, an atomic register is a field of the state; Go's memory model below that level is not modelled.
- Restarting a stopped broadcaster is excluded from runs; `StartSafeIff` shows what happens otherwise.
- The error "broadcasting disabled" of a cache without publishing, and its `Close`: one branch each.
- Durations: timers, and the parent's cancellation, may fire at any time.
- `OnceDisposable`: functions that panic or call back into the same object.
- `GValue.Swap`, `CompareAndSwap` and `Init`, and `SyncQueue`, `Set`, `SyncMap`: easy members.
- LastLines.LastLines: reads that return less than the buffer although the file goes on, and a file that changes while it is read. The loop over the buffers and the loop over one buffer are methods of their own, and the buffer size is a parameter where the source has 4096.
- Marshalling, pebble and godotenv are outside: marshallers are functions, assumed to invert only where a statement says so; the store is a map from byte strings to byte strings whose iterator sees the entries at the time it is made, and whose failing operations change nothing; an iterator reports a failure when it is closed; a file is either unreadable or a map of variables.
- File paths: a file is named by the pair of base directory and name; path cleaning is not part of this model.
- Env.Process.SetEnvs: on failure any of the other variables may have been set, because the map is walked in random order.
- The gRPC and HTTP services, the cache's `service.go` and `stream/recv.go`, the WASM runtime, logging, telemetry, containers and the other file helpers: plumbing around libraries.

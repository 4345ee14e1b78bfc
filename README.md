# beam protocol core, modelled in Dafny

beam lets a client start a named job on a worker through a Redis broker, and
lets both sides stream bytes to each other over broker lists. This project
models that protocol's core and proves properties of the model:

- frames (`name ":" body`): encoding, decoding, and the close frames `name ":"`
  and `"-" name ":"`;
- the stream endpoints over queues of chunks: `redisReader`, `redisWriter`,
  `redisStream` and `Channel`;
- the `Streamer` demultiplexer, which pops frames from one list and routes each
  body to its name's reader queue until an empty-bodied frame closes them all;
- the worker: claiming a started job with SETNX, reading its name, arguments
  and environment, running its handler and publishing the status (SET, then
  RPUSH); its read loop's dispatch;
- the client-side job lifecycle: NewJob, Start (arguments, environment, start
  signal), Wait, isComplete, and the watch loop;
- broker keys, built as paths joined by '/'.

The broker is a pure state machine, `Broker.Exec(store, command)`, over a map
from keys to lists, strings and hashes. A connection (`Broker.Conn`) is a class
holding that store, an optional transport failure, and the log of commands the
broker accepted. A client operation that sends several commands is proved equal
to `Broker.RunScript`, which stops at the first failing command. Go channels are
`Queues.Chan` objects (items plus a closed flag). A receive that would block, a
send on a closed channel, and a Go panic are preconditions. A goroutine's loop
becomes a method over the sequence of items it pops.

Modules follow the source files:

| module | source |
|---|---|
| Wrappers, Bytes, Errors, Queues | shared types |
| Utils | utils.go |
| RedisIO | io.go |
| Streams | streams.go |
| Channels | channel.go |
| Beam | beam.go |
| Paths | `path.Join`, used by worker.go and job.go |
| Broker | the broker commands the core sends |
| Workers | worker.go |
| Jobs | job.go |
| Protocol | lemmas joining job.go's writes to worker.go's reads |

Notes on the code that the model keeps as written:

- The claim key is the job key `/jobs/<id>` itself: the SETNX at
  worker.go:84-87 is on `KeyPath(id)`, not on a separate lock key.
- Wait ignores the status value (job.go:132-136). Any string status counts as
  done, an empty one (success) included.
- `ErrInvalidResposeType` is declared in both beam.go and job.go, which is a
  duplicate declaration in one package. The model has a single
  `InvalidResponseType`.
- beam.go declares `OpenWrite` twice, both returning nil. It is modelled once.

## Model

| member | source | states |
|---|---|---|
| Bytes.DecimalDigits | job.go:161 | the decimal form of a job id is non-empty and all digits |
| Bytes.ParseDecimalOfDecimal | worker.go:78-79 | reading back the decimal text of an id gives the id |
| Bytes.DecimalInjective | job.go:161 | distinct ids have distinct decimal texts |
| Utils.IndexOf | utils.go:65 | finds the first separator exactly: None iff absent, else the index of its first occurrence |
| Utils.SplitEnv | utils.go:31-42 | output is twice as long; slot 2k is the key of pair k (before the first '='), slot 2k+1 its value (up to the next '='); equals EnvPairs |
| Utils.EnvPairs | utils.go:31-42 | the flat key/value list of an environment, position by position |
| Utils.EnvValueStopsAtSecondEquals | utils.go:36-38 | `A=b=c` splits into key `A` and value `b`: text after a second '=' is dropped |
| Utils.AsInterfaceSlice | utils.go:44-50 | same length, element i is the text argument of value i; equals Texts |
| Utils.Texts | utils.go:44-50 | the argument list of a string slice, element by element |
| Utils.ParseMessage | utils.go:62-74 | fails with InvalidResponseType iff the payload holds no ':'; otherwise the id has no ':' and id ':' body is the payload |
| RedisIO.FormatMessage | io.go:63-65 | the frame is the name, one ':' and the body, at the right offsets |
| RedisIO.ParseFormatRoundTrip | io.go:63-65 | decoding an encoded frame gives back name and body, for every name without ':' and every body |
| RedisIO.FormatParseRoundTrip | utils.go:62-74 | every payload holding ':' decodes, and re-encoding gives the payload back |
| RedisIO.CloseFrameIsEmptyWrite | io.go:57-61 | the writer's close frame is the frame of an empty write and decodes to an empty body |
| RedisIO.RedisReader.constructor | io.go:21-23 | a reader on the given queue and name, with an empty buffer, not closed |
| RedisIO.RedisReader.Read | io.go:29-42 | EOF when closed and drained; otherwise takes at most one chunk, returns min(len p, buffered) bytes from the front of leftovers+chunk, keeps the rest, and the bytes delivered so far are a prefix of the chunks taken |
| RedisIO.RedisReader.ReadBuffer | io.go:41 | `bytes.Buffer.Read`: min(len p, buffered) bytes from the front, the rest stays, EOF on an empty buffer and non-empty p |
| RedisIO.RedisReader.Close | io.go:44-47 | marks the reader closed, keeping its buffer |
| RedisIO.RedisWriter.constructor | io.go:25-27 | a writer on the given queue and name, not closed |
| RedisIO.RedisWriter.Write | io.go:49-55 | ClosedPipe after Close, without touching the queue, which may then be closed; otherwise queues the frame name ':' p and reports len p |
| RedisIO.RedisWriter.Close | io.go:57-61 | marks the writer closed and queues the empty frame `name ":"` |
| Streams.CloseFrame | streams.go:102 | the close frame is the frame of "-" name with an empty body |
| Streams.CloseFrameDecodes | streams.go:100-104 | the close frame decodes to id "-" name and an empty body |
| Streams.RedisStream.NewWriteStream | streams.go:24-30 | a write stream: key, name and pool, no queues |
| Streams.RedisStream.NewReadStream | streams.go:32-38 | a read stream: fresh empty chunk and wait queues, no pool or key |
| Streams.RedisStream.Write | streams.go:40-52 | WriteOnReadonlyStream without a pool, ClosedPipe when closed, else one RPUSH of name ':' p, reporting len p only when the broker took it |
| Streams.RedisStream.Read | streams.go:54-74 | ReadOnWriteonlyStream without a queue; EOF when closed; else one whole chunk to the front of p; on a closed, drained queue it signals `wait` and marks itself closed |
| Streams.RedisStream.Close | streams.go:94-109 | a read stream closes its queue and waits, leaving the broker untouched; a write stream pushes the close frame and is marked closed only if the push succeeded |
| Streams.RedisStream.ResumeClose | streams.go:98-108 | after the reader's signal: consumes it, leaving the wait queue open, pushes the close frame if there is a pool, marks closed on success |
| Streams.RedisStream.Finish | streams.go:100-108 | pushes the close frame when there is a pool and marks the stream closed unless that push failed |
| Channels.ReadAsWritten | channel.go:25-56 | the read as written takes a chunk from the queue exactly when the leftovers do not fill p and the queue has one |
| Channels.ReadNeverOverfills | channel.go:25-56 | in every case p keeps its length and the count never exceeds it |
| Channels.ReadServesLeftoversFirst | channel.go:28-39 | leftovers that fill p are served first; no chunk is taken and the rest stays buffered |
| Channels.ReadOfFreshChunk | channel.go:41-48 | with no leftovers a chunk yields min(len p, len chunk) bytes and the rest is buffered, losing nothing |
| Channels.ReadAtEnd | channel.go:51-55 | a closed, drained queue gives EOF after whatever leftovers fit |
| Channels.MixedReadLosesData | channel.go:41-47 | leftovers "ab", p "zzz", chunk "cdef": p becomes "cbz", n = 3, buffer "f" |
| Channels.ReadCorrectedPreservesStream | channel.go:25-56 | the corrected read: bytes returned then new buffer are old buffer then the chunk taken; count at most len p, bytes past it untouched |
| Channels.Copy | channel.go:33 | Go's copy: min(len p, len src) bytes to the front of p, the rest unchanged |
| Channels.Channel.NewChannel | channel.go:16-23 | empty buffer, not closed; a fresh wait queue exactly when no empty response is sent on close |
| Channels.Channel.Read | channel.go:25-56 | p, count, buffer, EOF, the queue and the wait signal are exactly ReadAsWritten's outcome on the old state |
| Channels.Channel.ReadLeftovers | channel.go:28-39 | as many buffered bytes as fit go to the front of p and leave the buffer |
| Channels.Channel.Write | channel.go:58-65 | ClosedPipe after Close; otherwise p is queued as one chunk and len p reported |
| Channels.Channel.Close | channel.go:89-96 | queues one empty chunk when SendEmptyResponseOnClose and not yet closed, then closes the channel and its queue |
| Broker.HeldKeyPersists | worker.go:84 | a key that holds a string or hash keeps holding one after any command |
| Broker.ReplayWonAppend | worker.go:70-98 | the store and the won SETNX keys of a command log compose over concatenation |
| Broker.HeldKeyNeverWon | worker.go:84-90 | a SETNX on a key that is already held is never won |
| Broker.ClaimIsExclusive | worker.go:83-97 | over any command log no SETNX key is won twice: each job is claimed by at most one worker turn |
| Broker.RunScript | job.go:47-69 | the commands delivered are a prefix of the script, all of it on success, none under a transport failure |
| Broker.RunScriptAppend | job.go:50-56 | running two scripts back to back is one script, stopping after the first if it failed |
| Broker.ScriptKeepsKey | job.go:47-69 | a script whose commands all name other keys leaves a key's presence and entry unchanged |
| Broker.ScriptKeepsRead | worker.go:107-142 | a read of a key answers the same before and after a script on other keys |
| Broker.StringKeyPersists | job.go:132 | a string key stays a string after any command |
| Broker.StringKeyPersistsAll | worker.go:187-189 | a string key stays a string over any command log |
| Broker.Conn.constructor | utils.go:52-60 | a connection with the given store and failure and an empty log |
| Broker.Conn.Do | utils.go:76-81 | under a failure: that error and nothing changes; else the broker's reply and new store, and the command is logged |
| Queues.Chan.constructor | beam.go:59 | an empty, open channel |
| Queues.Chan.Send | beam.go:111 | appends the item; the channel stays open |
| Queues.Chan.Recv | beam.go:69 | the oldest item, or None once closed and drained |
| Queues.Chan.Close | beam.go:99-101 | closes the channel, keeping its items |
| Beam.ClassifyMeaning | beam.go:83-111 | a pop is a failure, a malformed frame (no ':'), a terminator (empty body) or data whose name has no ':' and whose frame is name ':' body |
| Beam.WrittenFrameRoutes | beam.go:91-111 | a frame written with a non-empty body routes to its name with that body |
| Beam.CloseFramesTerminate | beam.go:98-103 | both kinds of close frame stop the loop |
| Beam.Used | beam.go:98-103 | the loop consumes frames up to and including the first terminator |
| Beam.DeliverAt | beam.go:104-111 | one frame extends only its own name's queue, making it on first use |
| Beam.DemuxIsPerNameFilter | beam.go:79-125 | after a run, each name's queue is its old contents then exactly the bodies sent to it, and new queues appear only for names seen |
| Beam.SentToOnlyNamesIn | beam.go:104-110 | a name gets bodies iff a data frame for it came before the terminator |
| Beam.SentToKeepsArrivalOrder | beam.go:104-111 | a name's i-th body is its i-th data frame, in arrival order |
| Beam.SentToIgnoresOtherNames | beam.go:104-111 | removing another name's frame does not change what a name receives |
| Beam.Streamer.NewStreamer | beam.go:38-54 | keys as given, no readers, no handlers, no errors |
| Beam.Streamer.OpenRead | beam.go:58-62 | a fresh handler queue replaces any earlier one under the name, and a fresh reader reads it |
| Beam.Streamer.OpenWrite | beam.go:64-66 | no writer |
| Beam.Streamer.ReadFrom | beam.go:131-133 | copies nothing and reports no error |
| Beam.Streamer.WriteTo | beam.go:145-147 | not implemented |
| Beam.Streamer.OpenReadWrite | beam.go:151-153 | no stream |
| Beam.Streamer.Close | beam.go:157-159 | changes nothing |
| Beam.Streamer.Shutdown | beam.go:165-167 | not implemented |
| Beam.Streamer.CloseReaders | beam.go:99-101 | every reader queue is closed once, keeping its items |
| Beam.Streamer.Push | beam.go:104-111 | the body goes to its name's queue, made on first use; other queues unchanged |
| Beam.Streamer.Route | beam.go:83-111 | one arrival: errors recorded, terminator closes all, data delivered; the queues follow Deliver |
| Beam.Streamer.Run | beam.go:79-125 | the queues are Demux of the frames, errors are their errors in order, it stops after the first terminator and every queue is closed iff one came |
| Beam.Streamer.ListenerStep | beam.go:68-77 | forwards the oldest body to the handler registered now (dropped if none); once drained and closed, closes that handler |
| Workers.FoldPairsUntouched | worker.go:132-142 | a key no pair names keeps its earlier entry |
| Workers.FoldPairsLastWins | worker.go:132-142 | a key's last pair gives its value |
| Workers.EmptyErrorLooksLikeSuccess | worker.go:180-185 | a handler error with an empty message publishes the same status as success, while a missing job does not |
| Workers.EmptyIdDecodes | worker.go:163 | the frame ":a" decodes to an empty id, which `msg.Id[0]` cannot index |
| Workers.DispatchAsWritten | worker.go:158-172 | on a non-empty id, as written: close-all iff the id is "x"; a close of the rest of the id iff it starts with "-"; a forward iff the body is non-empty |
| Workers.Dispatch | worker.go:158-172 | "x" iff close-all; a close of name n iff the id is "-" n; a forward iff the body is non-empty; agrees with the code on every non-empty id |
| Workers.Worker.NewWorker | worker.go:22-28 | the pool and prefix as given, no handlers |
| Workers.Worker.KeyPath | worker.go:197-200 | a key under a non-empty prefix is non-empty |
| Workers.Worker.KeyPathSplits | worker.go:197-200 | splitting a key at '/' gives the prefix's pieces then the segments |
| Workers.Worker.KeyPathInjective | worker.go:197-200 | distinct segment lists give distinct keys |
| Workers.Worker.RegisterJob | worker.go:32-34 | the handler is registered under the name; others unchanged |
| Workers.Worker.ServeJob | worker.go:39-50 | an unregistered name gives "No such job: " name; otherwise the handler's own result |
| Workers.Worker.ReadJob | worker.go:107-142 | the read stops after the name lookup exactly when it finds no name; a request is read exactly when the name is a present bulk, the arguments a list and the environment an even flat list; its name is the LINDEX bulk, its arguments the LRANGE values, its environment the HGETALL pairs folded, later pairs winning |
| Workers.Worker.DecodeArgs | worker.go:119-124 | the argument list is the reply's values, one by one |
| Workers.Worker.DecodeEnv | worker.go:132-142 | an odd-length reply is ShortArray; otherwise the map is the left-to-right fold of its pairs |
| Workers.Worker.Work | worker.go:67-99 | the store is the replay of the turns' commands, the SETNX claims won are exactly the jobs spawned, and it returns only on a broker error or when no start signal is pending |
| Workers.Worker.ClaimNext | worker.go:74-97 | one BLPOP of a start signal then one SETNX on its job key; won iff that claim was new; the pending signals shrink |
| Workers.Worker.LoadJob | worker.go:107-142 | the job read is ReadJob of the store, with the reads issued logged and the store unchanged |
| Workers.Worker.StartJob | worker.go:102-195 | a read error is returned after the reads issued; otherwise the handler runs and its status is published by SET then RPUSH, stopping at the first failure |
| Workers.Worker.PublishStatus | worker.go:186-194 | SET of the status key, then RPUSH on the wait list, stopping at the first failure |
| Workers.Worker.ReadLoop | worker.go:152-173 | the actions are the corrected dispatch of every popped frame, in order |
| Jobs.KeyParts | job.go:160-163 | every job key is non-empty |
| Jobs.KeyPartsExample | job.go:160-163 | job 3's wait key is "/jobs/3/wait" |
| Jobs.KeyPartsRegroup | job.go:160-163 | `/jobs/<id>` joined with parts is "/jobs", the id, then the parts |
| Jobs.KeyPartsSplit | job.go:160-163 | a job key splits at '/' into "/jobs"'s pieces, the id, then the parts |
| Jobs.KeyPartsInjective | job.go:160-163 | distinct ids or part lists give distinct keys |
| Jobs.StartSignalComesLast | job.go:47-69 | the start signal reaches the broker only after every argument and environment write did |
| Jobs.StatusStaysSet | job.go:125-137 | once a status is set, any later commands leave it set |
| Jobs.PopMessage | job.go:99-105 | a failed pop keeps its error; a payload decodes iff it holds ':', and then re-encodes to itself |
| Jobs.WatchWritesEveryMessage | job.go:79-97 | with successful closes, watch writes every popped message in order, terminators included, and fails iff some pop failed |
| Jobs.TerminatorClosesThenWrites | job.go:88-94 | a terminator first closes the streamer and is then written |
| Jobs.FailedCloseStopsWatch | job.go:89-92 | a failed close ends watch with that error, before the terminator is written |
| Jobs.Job.constructor | job.go:39-44 | id, name and args as given, empty environment |
| Jobs.Job.WriteArgs | job.go:140-148 | one RPUSH of all arguments, only when there are some |
| Jobs.Job.WriteEnv | job.go:150-158 | one HMSET of the split environment, only when there is one |
| Jobs.Job.Setup | job.go:50-56 | the argument write then the environment write, stopping at the first failure |
| Jobs.Job.Start | job.go:47-69 | the arguments, the environment and then the start signal, stopping at the first failure |
| Jobs.Job.IsComplete | job.go:125-138 | one GET; complete iff the status key holds a string; a lookup error is wrapped as "Error getting job status" |
| Jobs.Job.Wait | job.go:107-123 | done at once when a status is already set; otherwise one BLPOP on the wait list, whose error is returned |
| Jobs.Job.Watch | job.go:79-97 | the actions and the error are exactly Watched of the popped messages |
| Jobs.NewJob | job.go:27-45 | a nil pool is refused; otherwise one RPUSH of the name; the job's id is that position, and LINDEX there gives the name back |
| Protocol.IntoIsFold | worker.go:132-142 | reading a hash's field list back into a map is the worker's pairwise fold of the flat reply |
| Protocol.IntoHSetPairs | job.go:153 | an HMSET of pairs, read back, is the fold of those pairs over the earlier fields |
| Protocol.ArgsBytesTexts | utils.go:44-50 | the broker stores text arguments as the strings themselves |
| Protocol.KeysAgree | worker.go:197-200 | with prefix "/jobs" the worker's job keys, list key and start key are the client's |
| Protocol.NameRoundTrip | job.go:33-37 | after NewJob's RPUSH, the worker's LINDEX of the new id gives the job name |
| Protocol.ArgsRoundTrip | job.go:140-148 | the worker's LRANGE of the args key gives back the client's arguments |
| Protocol.EnvRoundTrip | job.go:150-158 | the worker's HGETALL of the env key gives an even reply folding to the client's split environment |
| Protocol.StartKeysApart | job.go:160-163 | the argument key, the environment key, the start list and the job list are four different keys |
| Protocol.StartKeepsJobList | job.go:47-69 | Start's commands leave every LINDEX of the job list as it was |
| Protocol.StartWritesArgs | job.go:140-148 | after a successful Start on a fresh argument key, LRANGE there gives the arguments, an empty list when there are none |
| Protocol.EnvPartWrites | job.go:150-158 | writeEnv on a fresh key leaves a hash whose HGETALL is even and folds to splitEnv's pairs, empty when there is no environment |
| Protocol.StartWritesEnv | job.go:47-69 | after a successful Start on fresh keys, the environment hash folds to splitEnv's pairs whatever the arguments were |
| Protocol.ReadFromReplies | worker.go:107-142 | replies naming a job, its argument list and an even environment list make the worker read exactly that request |
| Protocol.StartedJobReadsBack | job.go:27-69 | after NewJob's RPUSH and a successful Start on fresh keys, the worker reads the job under its id as the client's name, arguments and the fold of its split environment |
| Protocol.EnvEntrySeen | worker.go:132-142 | an environment entry whose key no later entry repeats reaches the handler with its value |
| Protocol.PublishedStatusIsSeen | worker.go:186-189 | after the worker's SET, the client finds the status set, whatever runs afterwards |
| Paths.SplitJoin | worker.go:197-200 | a joined path splits back into its first element's pieces and its segments |
| Paths.JoinRegroup | job.go:160-163 | joining a base, a segment and the rest is joining base '/' segment with the rest |

## Left out

- client.go, transport.go, cmd/ and examples/ are not part of this model. The
  transport and the redigo reply decoding are replaced by `Broker.Exec`'s
  replies.
- `Debugf`, `newConnectionPool`'s dialing and pool size, and `send`'s
  connection handling: logging and sockets.
- Goroutines and concurrency: each loop is modelled as one sequential method
  over the items it pops. Channel capacities (100, 1024, 1) are not modelled.
  A send never blocks in the model.
- The `ReadFrom` methods of `redisStream` and `Channel` (bufio line scanning)
  are not modelled.
- `path.Join`'s full cleaning (`..`, doubled slashes) is not modelled. Keys are
  joined from non-empty elements.
- A handler's streams and database arguments are not modelled. A handler is a
  function of name, arguments and environment.
- The lowercase `streamer` type, `CloseStream` and `WriteMessage` that job.go
  and worker.go call are not declared in beam.go. So the worker's per-job
  streamer (keys `streams/in` and `streams/out`) and the client's streamer are
  not modelled. The result of the client's close is the parameter `closeErr`
  of `Jobs.Job.Watch`.
- Job.OpenRead and Job.OpenWrite (job.go:71-77) only delegate to that
  streamer, so they are not modelled.
- The `ExitStatus` field is never written and is not modelled.
- Negative LINDEX and LRANGE indices are not modelled, except that LRANGE 0 -1
  is a whole-list read. The BLPOP timeout is not modelled either.
- Workers.Worker.Work: the source loops forever. The model stops when the next
  BLPOP would block. The spawn of `startJob` in a goroutine is a returned list
  of ids, and `Workers.Worker.StartJob` models one such run.
- Jobs.Job.Wait: requires that the BLPOP on the wait list would not block when
  it is reached. Waiting for the worker is outside a single step.
- Streams.RedisStream.Read: requires the chunk to fit in p, an array whose
  length is also its capacity. In Go, `p[:n]` (streams.go:65) panics only when
  the chunk is longer than `cap(p)`. A chunk longer than `len(p)` but within
  `cap(p)` is copied past `len(p)` and n exceeds `len(p)`; the model cannot
  express that case. Read also requires the blocking receive to have a chunk
  or a closed queue.
- Broker.Conn: a transport failure holds for the whole connection. A command
  cannot fail on the transport after an earlier one on the same connection
  succeeded. So the transport error of Work's SETNX after its BLPOP
  (worker.go:84-87), or of Start's signal after its writes, is not modelled.
  Errors the broker returns for one command (wrong type, wrong arity) are
  modelled per command.
- Streams.RedisStream.Close: on a read stream the blocking `<-s.wait` splits
  Close into Close and ResumeClose.
- Channels.Channel.Read: requires the mixed case's `chunk[n:]` to be in range,
  because the source panics otherwise (see Findings). At EOF the goroutine's
  signal on `wait` is modelled as already queued. When `wait` is nil the
  source's goroutine blocks forever, which is not modelled.
- Utils.SplitEnv: requires every entry to hold '='. `parts[1]` panics
  otherwise.
- Workers.Worker.ReadLoop: runs the corrected `Workers.Dispatch`. On a frame
  with an empty id, such as ":a", it forwards the body, where the source
  panics on `msg.Id[0]` (worker.go:163; see Findings).
  `Workers.DispatchAsWritten` is the code as written, defined on non-empty ids
  only.
- Workers.Dispatch: closing streams and forwarding are actions the loop
  returns, not effects on a streamer.

## Findings

| source | as written | input that shows it | evidently intended | confidence | as-written member | corrected member |
|---|---|---|---|---|---|---|
| channel.go:41-47 | when leftovers only partly fill p, the chunk is copied to `p[0:]` over them and the new buffer is `chunk[n:]` with n counting the leftovers | buffer "ab", p "zzz", chunk "cdef": p becomes "cbz", n = 3, buffer "f" ("a" and "de" are lost); a chunk shorter than n panics | copy the chunk to `p[n:]` and keep `chunk[cs:]` | not executed | Channels.MixedReadLosesData | Channels.ReadCorrectedPreservesStream |
| worker.go:163 | `msg.Id[0]` on every popped frame | the frame ":a" decodes to id "" and body "a", and indexing the empty id panics | an empty id is no close request, and its body is forwarded | not executed | Workers.EmptyIdDecodes | Workers.Dispatch |

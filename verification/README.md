# ACppSrv: models and proofs of its concurrent protocols

ACppSrv is a small multithreaded application server: an accept loop with a connection limit,
one coroutine per HTTP connection, a pool of database threads with prepared SQLite statements
that retry on locks, statistics counters, and a closed-loop load generator. Almost all that can
go wrong in it lies in hand-written protocols over counters, flags and posted handlers. This
project models those protocols in Dafny and proves what they keep in every run.

How to read it:

- `Admission` is the accept loop against connection ends, `Connection` the request loop of one
  connection, `Statistics` the four atomic counters.
- `Sqlite` is the prepared statement with an adversarial database behind it, `QueryEngine` the
  binding, stepping and retrying of one request, `DbTables` the per-thread tables, `RetryToken`
  the flag and condition variable between database threads, `Handoff` the path of a query from a
  connection to a database thread and back.
- `CreateRun` is the load generator's job arithmetic and transaction batching, `KeysFile` the
  binary file between its two phases, `LogToken` its once-a-second log line.

Shared state that several threads change is modelled twice where the code keeps it in one
object: as a step system, in which one step is one atomic access, one region under a mutex or one
move between suspension points, and as a class whose methods are those regions, each proved equal
to the step it stands for. A run is any sequence of enabled steps, so a statement about all runs
covers every interleaving. Sockets, parsers, clocks, random numbers and SQLite are arbitrary
inputs: scripts, readings, numbers, or functions from the state of affairs to an outcome.

What is assumed:

- the second, throwing call of `remote_endpoint()` (src/http_server.cpp:131), made after the
  counter was incremented, does not throw;
- a socket write can fail but never reports the parser's `body_limit` error;
- the clock of the load generator never reads as the empty time point;
- handlers of the `create` command do not throw before their record is counted, and (except in
  `CreateRun.IsDoneExact`, which shows that this is exactly what `is_done` needs) the record
  counter does not wrap.

Four statements one might expect turn out false of the code, and are given with their exact
condition and with a run that breaks them:

- an ok answer holds the rows of its final attempt: true exactly if no earlier attempt was locked
  after a row (`QueryEngine.RowsAreFinalAttempts`), so guaranteed to a caller exactly if no retry is
  allowed (`QueryEngine.CleanWithoutRetries`, `QueryEngine.RetryCanDuplicateRows`);
- a finished create run has committed everything: guaranteed exactly with one partition or one
  record (`CreateRun.NeverLeavesOpenExactly`, `CreateRun.CanLeaveOpen`);
- no commit of a create run fails: guaranteed exactly with one record, or one partition and a
  target that is one more than a multiple of 100 (`CreateRun.NeverFailsCommitExactly`,
  `CreateRun.CanFailCommit`);
- `is_done` is right in every run: exactly if R + k - 1 is below 2^64 (`CreateRun.IsDoneExact`,
  `CreateRun.CanWrap`).

## Model

| member | source | states |
|---|---|---|
| Admission.LimitHolds | src/http_server.cpp:48-62 | In every reachable state of every interleaving the counter equals the number of sessions accepted and not yet ended, and never exceeds a configured limit, although the increment is outside the mutex. |
| Admission.Refines | src/http_server.cpp:109-158 | The protocol refines a bounded set of numbered sessions: an accept opens a fresh session while there is room, an end closes one, and locking, parking, posting and resuming are invisible. |
| Admission.NextEndWakes | src/http_server.cpp:149-157 | No lost wake-up: a parked loop means a full server with at least one session; after the next end's decrement only that end can move, it posts the handler exactly once, and the loop resumes with room. |
| Admission.ResumeHasRoom | src/http_server.cpp:112-119 | However long a wake-up waits in the queue, there is exactly one, and the loop that resumes without rechecking is still below the limit. |
| Admission.NeverStuck | src/http_server.cpp:34-62 | Every reachable state has a possible step, and a parked loop always has a session whose end will wake it. |
| Admission.FairPlacement | src/http_server.cpp:72-79 | Attempts at any two used pools differ by at most one, the pool index is valid, and with a reserved accept pool no session is placed on the acceptor's pool. |
| Admission.PlacedInTurn | src/http_server.cpp:111-140 | From a run's events alone: each session is on the pool numbered by the accepts completed before its own, modulo the pools used, and stays there. |
| Admission.HttpServer.constructor | src/http_server.cpp:66-107 | The server starts idle, with a limit only if it is not zero and one pool fewer if the last is reserved. |
| Admission.HttpServer.ConnLimit | src/http_server.cpp:48-62 | Takes the mutex, then either keeps it on the way to parking or releases it, exactly as the step system says. |
| Admission.HttpServer.ConnLimitInit | src/http_server.cpp:40-45 | Stores the handler before it releases the mutex. |
| Admission.HttpServer.AcceptCompleted | src/http_server.cpp:117-140 | A completed accept increments the counter and takes a new session number only for a usable connection; the session is recorded on the pool whose turn it was; the pool index advances in any case. |
| Admission.HttpServer.ConnectionEndBegin | src/http_server.cpp:149-150 | Takes the mutex and decrements. |
| Admission.HttpServer.ConnectionEndTest | src/http_server.cpp:151-158 | Moves the parked handler to the executor if the counter is below the limit, and unlocks. |
| Admission.HttpServer.Drive | src/http_server.cpp:109-158 | Under any schedule the object's state is the one the step system reaches, and the limit holds. |
| Connection.HandleConnection | src/http_server.cpp:184-307 | For every script of read, parse and write outcomes the code with its loops, jumps and destructor does exactly what an answer-by-answer reference machine does; what every answer was used for follows from the answers before it, and the trace is what the answers so used look like; the trace conforms to the protocol at every moment; it finished normally exactly if the last message was a fully written response with keep-alive off; the accounting runs exactly once on every way out; a 413 was sent exactly if a read hit the body limit; the requests counted are 1..`req_n`. |
| Connection.ServeRequest | src/http_server.cpp:203-241 | One turn of the request loop produces one of the event sequences allowed for the way it ends, and leaves the reference machine where the code is; it waits only when there is no further answer. |
| Connection.FinishRequest | src/http_server.cpp:242-288 | The same for reading the body, running the handler and sending the response, with keep-alive decided by request and cap. |
| Connection.PlayTells | src/http_server.cpp:201-306 | Of every script: a body read is used only while the latest read left the message unfinished, the handler only once it is finished and any 100 is written, a response only after a handler that did not throw, a 413 only after a read that hit the limit, a further header only after a written response with keep-alive on; the connection is over exactly on the other outcomes; and the trace shows each use with the answer's own fields. |
| Connection.TellsOnce | src/http_server.cpp:201-306 | These rules leave only one possible story: a script determines every use and everything seen. |
| Connection.PlayGone | src/http_server.cpp:306 | Once a connection is gone no further outcome has any effect. |
| Connection.ResponsesInOrder | src/http_server.cpp:273-305 | In every run: one final response per request, in request order, all but the last with keep-alive on; a 413 is the last message; nothing is read or sent after a response marked close; a 100 never follows its final response (sections 9.3.2 and 9.6 of RFC 9112, section 10.1.1 of RFC 9110). |
| Connection.FinalAnswersHeader | src/http_server.cpp:228-271 | Every response answers a header read before it; keep-alive is on exactly if asked for and below the cap; a 100 that was asked for was written in between. |
| Connection.CapHolds | src/http_server.cpp:269-271 | With a cap K no connection ever reads more than K request headers. |
| Statistics.Conservation | src/http_hnd_stat.cpp:15-26 | For each counter and every interleaving of increments, reads and resets, everything added equals the current value plus all values returned by resets, modulo 2^64. |
| Statistics.RequestsAddUp | src/http_server.cpp:197-221 | Connections are counted once each, and requests added equal the sum of all `req_n`, up to connections between the two increments and exactly at quiescence. |
| Statistics.EventsAddUp | src/http_server.cpp:197-267 | From a run's events alone: connections, requests, request bytes and response bytes each add up to what their own counter holds plus what resets returned, modulo 2^64, and a connection's `req_n` is the number of its headers. |
| Statistics.StatData.Access | src/http_hnd_stat.cpp:15-25 | One exchange or load of a `/stat` request on the counters is one step of the system and returns the counter's value. |
| Statistics.StatData.HandleSync | src/http_hnd_stat.cpp:8-29 | Served without interruption, the request is a run of exactly five steps of the system; its response is a snapshot and a reset leaves zeros. |
| Statistics.StatData.Drive | src/http_server.cpp:197-267 | The object driven through any run of increments and `/stat` accesses ends where the step system ends, with everything added still held or taken by a reset, modulo 2^64. |
| Sqlite.ToProto | src/db_server.cpp:74-91 | A column copied into a response, sent back as an argument, binds the same value. |
| Sqlite.Statement.Start | src/sqlite3.cpp:210-216 | Resets always; forgets all bindings unless restarting; throws only if clearing fails. |
| Sqlite.Statement.Bind | src/sqlite3.cpp:121-160 | Binds one parameter of a reset statement, or throws and changes nothing. |
| Sqlite.Statement.NextRow | src/sqlite3.cpp:190-208 | Demands that no static binding points into a finished request; returns the next row of the attempt, or done, locked (only with retries left) or an error by the low byte of the code. |
| QueryEngine.BindArgument | src/db_server.cpp:19-41 | Numbers and nulls are bound by value, text and blobs as pointers into the request. |
| QueryEngine.BindAll | src/db_server.cpp:176-178 | On success the parameters are exactly the request's arguments with null for the rest, and every pointer leads into this request. |
| QueryEngine.ExecuteQuery | src/db_server.cpp:43-94 | Terminates by (retries left, rows left in the attempt), never fails its assertion, steps only with unchanged bindings, and returns the rows of all attempts made, their success, and a requested waiting time of the configured wait for every attempt after the first. |
| QueryEngine.RunQuery | src/db_server.cpp:153-190 | Unknown database or query: an error and no effect. Otherwise: failure if it cannot be bound; with retries allowed, the outcome is that of the first moment of the database that does not end on a lock, or of the last retry, with the rows of all moments up to it, value by value; without, outcome and rows of the first moment; the waiting asked for is one configured wait per retry made; no other statement changes, and every step was made with this request's arguments. |
| QueryEngine.ServeAll | src/db_server.cpp:152-190 | Over any sequence of requests every `sqlite3_step` ran on its request's statement with exactly that request's arguments, and every response is the right one at some moment of the database, as for a statement without a past. |
| QueryEngine.AttemptsShape | src/db_server.cpp:53-68 | Attempts are consecutive, each but the last ended on a lock, and a run that ends locked has used all its retries. |
| QueryEngine.Attempts | src/db_server.cpp:53-68 | There is at least one attempt and at most one more than there are retries. |
| QueryEngine.AttemptsEnd | src/db_server.cpp:53-68 | Exactly one number of retries ends a request: all before it met a lock, and it did not or was the last allowed; the attempts made and their rows are those up to it. |
| QueryEngine.RowsAreFinalAttempts | src/db_server.cpp:57-69 | The rows of all attempts are the final attempt's rows if and only if no earlier attempt was locked after returning a row. |
| QueryEngine.ResponseRows | src/db_server.cpp:182-188 | A response that is not ok has no rows; an ok one has the rows of all attempts in order, and they are the final attempt's if and only if no earlier attempt returned one. |
| QueryEngine.RetryCanDuplicateRows | src/db_server.cpp:66-69 | For every request that may be retried there is a database whose ok answer to it holds one row twice, although the final attempt returned it once. |
| QueryEngine.CleanWithoutRetries | src/db_server.cpp:53-69 | An ok answer is sure to hold just the final attempt's rows, whatever the database does, if and only if no retry is allowed. |
| DbTables.ThreadPool.Run | src/worker.cpp:30-67 | Thread `t` of the pool is given index `t`. |
| DbTables.CappedWait | src/db_server.cpp:135-137 | The configured wait, or one minute if that is shorter; zero if none is configured. |
| DbTables.DbServer.OpenDatabase | src/db_server.cpp:116-142 | Succeeds exactly if SQLite opens the file and prepares every query's text; then the entry has exactly the configured file, queries, each with its own text, and settings, fresh statements, and the first thread's synchronisation object. |
| DbTables.DbServer.Run | src/db_server.cpp:106-150 | Succeeds exactly if SQLite refuses nothing; then there is one table per thread, each with exactly the configured databases and queries under their texts, sharing synchronisation objects with the first, and nothing stepped yet. |
| DbTables.SyncByName | src/db_server.cpp:138-141 | Two threads' entries share a synchronisation object if and only if the database name is the same. |
| DbTables.StatementsPrivate | src/db_server.cpp:124-133 | Different threads' tables have no statement in common. |
| DbTables.DbServer.RunOnThread | src/db_server.cpp:159-181 | The thread's index always selects a table, only that table's statements are touched, unknown names are told apart, the answer is the right one for the request, retried as its database is configured, and all the waiting it asks for is at most the capped wait for each configured retry, so at most a minute for each. |
| DbTables.DbServer.RunJobs | src/db_server.cpp:152-190 | For any whole jobs on any threads, every step a statement ever made was made by its own thread. |
| DbTables.DbServer.Interleave | src/db_server.cpp:159-181 | For the calls of any threads on their own tables in any interleaving: every step meets SQLite's demand on static bindings, each statement records exactly the steps made on it, and only its own thread made any. |
| RetryToken.OneSlot | src/db_server.cpp:48-65 | Over all runs each completion is a wait it ended, the flag now set, or one that found the flag set; so signalled waits plus the flag never exceed completions. |
| RetryToken.NoFreeSignals | src/db_server.cpp:60-65 | Between any two moments signalled waits exceed completions by at most the one slot. |
| RetryToken.NoMissedSignal | src/db_server.cpp:48-65 | If a thread is asleep while the flag is set, another waiter has been notified and its next look takes the token, despite timeouts and spurious wakes. |
| RetryToken.WaitsEndRightly | src/db_server.cpp:60-65 | For every thread over all runs: each wait begun goes on, or ended at a look that found the flag, or at a look after the time limit; nothing else ends one, and it leads back to the execution, which ends only by finishing. |
| RetryToken.FlagFromEvents | src/db_server.cpp:48-65 | From a run's events alone: the flag, as one or zero, is the completions less those that found it set and less the looks that took it. |
| Handoff.ExactlyOneItem | src/http_hnd_db.cpp:13-30 | An awaiting connection has exactly one item among queued job, running job, posted completion and dying job; others have none. |
| Handoff.ResumedOnceWithOwnAnswer | src/http_hnd_db.cpp:39-41 | Every resumption is on the connection's own executor, with the answer to its own request, at most once per await. |
| Handoff.QueryIsItsConnections | src/http_hnd_db.cpp:13-41 | After `Connect(c, executor)` and `Submit(c, request)`, whatever ever carries that submission's number is c's, with that request, for that executor. |
| Handoff.AnswerComesBack | src/db_server_impl.hpp:13-18 | After `Finish(i, response)` no delivery of that job's submission ever has any other response. |
| Handoff.FirstComeFirstServed | src/db_server_impl.hpp:13-18 | Jobs are taken in the order of their submission, and no more run at once than the pool has threads. |
| Handoff.NothingForgotten | src/db_server_impl.hpp:10-19 | Submitted queries are conserved; once the executors are drained nobody waits, and every query was answered to its connection or died with it, which happens only by an exception other than `sqlite::error`. |
| Handoff.UnwoundUnanswered | src/http_hnd_db.cpp:39-41 | A connection is ended by a dead job exactly if one of its jobs died, once, and that query is never answered or delivered. |
| Handoff.StepKeepsInv | src/http_hnd_db.cpp:13-46 | Every post, dequeue, completion, exception, resumption and unwinding keeps the one-item ledger, the items' ownership and the records of deliveries and endings. |
| CreateRun.Terminates | benchmark/benchmark.cpp:435-460 | In every schedule at most k = min(1000, R) handlers are queued or running, at most R + k - 1 records are inserted, and the run ends within 3(R + k - 1) steps. |
| CreateRun.ExactCount | benchmark/benchmark.cpp:411-421 | A run that cannot go on has every strand idle and exactly R + k - 1 inserts. |
| CreateRun.IsDoneExact | benchmark/benchmark.cpp:454-460 | Every job of every run is told rightly whether the target has been reached, if and only if R + k - 1 is below 2^64. |
| CreateRun.CanWrap | benchmark/benchmark.cpp:454-460 | For any larger configuration, a run in which the counter wraps to zero after the target and the job counted last goes on. |
| CreateRun.BatchesBeforeTarget | benchmark/benchmark.cpp:398-416 | Until the target is reached a partition at rest has a transaction open exactly if `cur_tx` is positive, and `cur_tx` is its number of uncommitted inserts, below 100; no transaction is begun inside another. |
| CreateRun.DrainExactly | benchmark/benchmark.cpp:418-421 | After a drain everything is committed and nothing open; commits with nothing open number the drained jobs less one, unless the other jobs fill whole batches. |
| CreateRun.LeftOpen | benchmark/benchmark.cpp:411-421 | At the end a partition keeps a transaction open exactly if no chain ended on it and its inserts do not fill whole batches; no insert is lost or doubled. |
| CreateRun.CanLeaveOpen | benchmark/benchmark.cpp:411-421 | For any configuration with two partitions and two records, a complete run that leaves an insert uncommitted. |
| CreateRun.NeverLeavesOpenExactly | benchmark/benchmark.cpp:411-421 | No complete run leaves a transaction open, if and only if there is one partition or one record. |
| CreateRun.CanFailCommit | benchmark/benchmark.cpp:418-421 | For any configuration with R at least 2 and either two partitions or R - 1 not a multiple of 100, a complete run in which k - 1 commits fail. |
| CreateRun.OnePartitionFails | benchmark/benchmark.cpp:418-421 | With one partition every complete run has k - 1 failing commits, or none if R - 1 is a multiple of 100. |
| CreateRun.NeverFailsCommitExactly | benchmark/benchmark.cpp:418-421 | No complete run makes a commit fail, if and only if R = 1, or there is one partition and R - 1 is a multiple of 100. |
| CreateRun.NeverBatchesAgain | benchmark/benchmark.cpp:411-421 | Once a commit has thrown on a job meant to go on, the partition's inserts are committed one by one for ever, and commits are tried, and fail, only where chains end. |
| CreateRun.Partition.HandleCreate | benchmark/benchmark.cpp:392-422 | The handler on a partition's fields is insert followed by going on or draining, posts a successor exactly if not done and no commit throws, and keeps the batching invariant. |
| KeysFile.ReadBack | benchmark/benchmark.cpp:648-661 | Reading index i of the written bytes gives the i-th (partition, hash) pair written. |
| KeysFile.EncodeDecode | benchmark/benchmark.cpp:59-66 | The hash copied out of a key and into the file is the key's own four bytes. |
| KeysFile.DecodeEncode | benchmark/benchmark.cpp:657-659 | The hash read from the file is the hash written. |
| KeysFile.FillValue | benchmark/benchmark.cpp:305-307 | The value buffer holds the key as often as it fits and is otherwise untouched. |
| KeysFile.CreateAll | benchmark/benchmark.cpp:405-410 | Every record goes to the partition its key selects, and each partition's file is the image of its own records, none twice, none left out: entry j is the partition's number and bytes 1 to 4 of its j-th key. |
| KeysFile.FileHoldsKeys | benchmark/benchmark.cpp:51-66 | Byte by byte, an entry of the file is its key's first byte modulo the number of partitions and its next four bytes. |
| KeysFile.CatenateIsFile | benchmark/benchmark.cpp:120-123 | The partitions' files in any order are the file of all their records in that order. |
| KeysFile.KnownKeys.GetKey | benchmark/benchmark.cpp:648-661 | For any random number: inside the mapped bytes, or one of the added keys. |
| KeysFile.DrawKnownKey | benchmark/benchmark.cpp:637-661 | A key drawn from any concatenation of the files names an existing partition in which a record with that hash was inserted. |
| LogToken.NeverLostNorDoubled | benchmark/benchmark.cpp:259-272 | In every interleaving `tt` is set, or exactly one thread holds its value. |
| LogToken.OncePerSecond | benchmark/benchmark.cpp:265-271 | True results are at least a second apart, and n of them mean at least n seconds since the start. |
| LogToken.LogsWhenDue | benchmark/benchmark.cpp:259-272 | A call that gets the token returns true exactly if its reading is a second or more after the last line or the start; one that does not returns false. |
| LogToken.DecidesWithItsSample | benchmark/benchmark.cpp:260-265 | Whatever other threads do meanwhile, a call decides with the reading it took. |

## Left out

- Sockets, coroutine frames, timers and the internals of Boost.Asio and Boost.Beast appear only as events, orders of completion and outcomes.
- SQLite itself, the meaning of SQL texts, pragmas and cache arithmetic: only reset, bind, step and column access matter here.
- Protobuf and JSON encoding, content-type selection and the bodies of the `/echo` and `/db` handlers add only shallow branches.
- Logging, configuration reading, command lines, signals and shutdown are not modelled.
- The `requests` command's job loop, because it repeats the create run's without a target; only its key generator and log token are modelled. Its per-second counters are left out.
- Message texts: a response's `msg` is one of four kinds instead of a string.
- Widths: session numbers, `req_n` and row counts are unbounded; the statistics counters and the record counter wrap at 2^64, and the lengths of bound texts stay within `int`.
- Partially filled tables after a failed `run`, which the application never uses.
- RetryToken, Handoff and LogToken are step systems over values without an object beside them, because their state is spread over several threads' frames and queues.
- CreateRun.Terminates: is stated for targets whose total fits the 64-bit counter; past CreateRun.CanWrap's wrap a run may insert more, and that it ends is not stated.
- DbTables.DbServer.Interleave: takes arguments that stay alive throughout; which request's arguments a step reads is QueryEngine.ServeAll's statement, for one thread.
- KeysFile.DrawKnownKey: requires at least one complete entry, since the code divides by the number of entries; the machine's byte order is taken as little-endian.
- What the database does with a transaction left open at exit is not part of this model.

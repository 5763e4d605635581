# A verified model of an online judge

The system takes programs over HTTP, queues them in Redis, judges them in a pool of worker threads and lets
clients poll for verdicts. This project models its judging protocol, its evaluation pipeline and its account
service in Dafny, and proves what holds of them over every input, every interleaving and every run.

## How it is put together

The store, from the typed view down to bytes:

- `Store` is the store as the rest of the system thinks of it: one queue and separate typed maps, one atomic
  operation per Redis command, a clock in seconds. A key with `EX n` written at time t is readable while now < t + n.
- `Keyspace` is the flat database of texts and JSON documents under prefixed keys, with the seven Redis commands
  that are used. It is proved to simulate the typed store over every run.
- `Codec`, `Verdicts` and `Decimal` are the encodings, with their round trips.
- `RedisClient` is the client as a class. Its server is shared: others act, and time passes, before every
  transmission, and requests and replies may be lost. `Runs(a, b, script)` is what a method's contract says about
  its calls. Each exchange of the script is an operation, how often it was applied (0, 1 or 2 times), and the reply
  that came back, if one did, with the moment of the server's history at which it was the true answer. The contracts
  of the classes above it say what is returned as a function of these replies, whoever else is active. With no one
  else active the world afterwards is exactly the script's effect.
- `Lossy` is about the second transmission after a lost reply: which repeated commands leave no trace, and an
  account of every copy of every job.

The protocol, as a state machine whose runs are lists of single atomic commands:

- `Protocol` has submit handlers, worker threads and readers, each with a program counter, and history variables.
  `SubmitOps` and `JudgeOps` in `Store` are the programs of a handler and a worker; the classes below are proved to
  run them, and the machine steps through them.
- `ProtocolInvariant` has the invariant and its preservation by every step. `ProtocolQueue`, `ProtocolHistory`,
  `ProtocolVerdicts`, `ProtocolRulings`, `ProtocolReaders` and `ProtocolLiveness` have the theorems.

The handlers, the account service and the pool, as classes over the Redis client: `Api`, `Auth`, `WorkerPool`.
`Credentials` has the account operations as functions on the typed store, and what holds of them over every
sequential run; `Registrations` has the race of overlapping registrations over that store. `Sequences` is about lists
that are kept newest first.

Evaluation, with imperative methods: `Output` (trimming and matching), `Streams` (the two-pipe reader), `Sandbox`
(one run and its verdict), `Evaluator` (all runs of a submission and their aggregation), `Loader` (test cases on
disk) and `Languages`.

## Where the code is not what one would expect

- The verdict of a submission is the verdict of its last test (worker/src/evaluator.cpp:84), so "ACCEPTED only if
  every test passed" is false. `Evaluator.AcceptedWithFailures` says exactly when, and
  `Evaluator.AcceptedSubmissionFailsTests` says so of whole submissions, with `Evaluator.OnePassedOfTwo` as an example.
- The status key of a finished submission can end as PENDING, because a job is queued before its first status is
  written (api/src/server.cpp:219-225). `ProtocolLiveness.StatusCanEndPending` is such a run, and
  `ProtocolVerdicts.StatusAtQuiescence` says exactly when. Clients do not see it: they read the result first.
- Two overlapping registrations of one name can both succeed, because `register_user` looks and then stores
  (shared/src/auth.cpp:74-86). `Registrations.BothSucceedExactlyWhen` says exactly when, and
  `Registrations.LoginAfterwards` what becomes of the earlier winner.
- The repository's README says that `wait4` reports CPU time and memory. The reader loop has already reaped the
  child with `waitpid` (sandbox/src/sandbox.cpp:174) when `wait4` is called (line 196), so the call can fail and leave
  zero status and usage. The cascade is modelled as a function of whatever `wait4` left;
  `Sandbox.FailedWaitAgrees` says exactly when its verdict is then still the right one, and `Sandbox.CrashIsAccepted`
  is a run for which it is not.
- The problem list and a single problem can report different numbers of test cases; `Loader.CountsAgree` says
  exactly when, and `Loader.UnpairedInput` is an example.

## Model

| member | source | states |
|---|---|---|
| ProtocolVerdicts.ReadsInTimeShowTheVerdict | api/src/server.cpp:241-254 | In every reachable state, every line that any reader has shown after reading the result key later than the result's writing and within 86400 s of it has the ruled verdict, whoever read first and whenever the reader began, although the status key may go back to PENDING. |
| ProtocolVerdicts.ReadAfterRuling | api/src/server.cpp:241-254 | In the order of events, and so also within the same second: once a result is written, a read of the result key shows its verdict until 86400 s have passed and nothing from then on. |
| ProtocolVerdicts.TerminalVerdictsAreStable | api/src/server.cpp:241-254 | Once some reader has shown a terminal verdict, there is a result, and every reader that starts later and reads the result key before 86400 s have passed since its writing shows the same verdict. |
| ProtocolVerdicts.StatusWritesInOrder | worker/src/worker.cpp:47-53 | A submission's worker writes COMPILING, RUNNING, verdict to its status key, in this order and no more; the API writes PENDING once, at any time after the enqueue. |
| ProtocolVerdicts.TerminalStatusImpliesResult | worker/src/worker.cpp:52-53 | Whenever the status key shows a terminal verdict, the result is already stored, for this submission and with this verdict. |
| ProtocolVerdicts.StatusAtQuiescence | api/src/server.cpp:219-225 | When the worker is done, the status key was last written with the verdict, or with PENDING if and only if the API's write came last. |
| ProtocolVerdicts.NotFoundOnlyAfterExpiry | api/src/server.cpp:225-256 | Once PENDING has been written, and so after every 202, a reader finds neither key if and only if 86400 s have passed since the last status write. |
| ProtocolVerdicts.StatusOutlivesResult | worker/src/worker.cpp:52-53 | If the worker's verdict was the last status write, the status key shows it for 86400 s from then, so never expires before the result. |
| ProtocolVerdicts.LatePendingIsInvisible | api/src/server.cpp:225 | A PENDING written after the job has finished turns the status key back and leaves the result as readable as it was. |
| ProtocolRulings.RulingsComeFromEvaluations | worker/src/worker.cpp:50-52 | In every run, each stored result is that of an evaluation by some worker of this very job, and says of it what Evaluator.Decides demands. |
| ProtocolQueue.ExactlyOnce | shared/src/redis_client.cpp:63-85 | In every reachable state each job that was pushed is in exactly one of the queue, one worker's hands or the finished jobs, once; other jobs are nowhere. |
| ProtocolQueue.FirstInFirstOut | shared/src/redis_client.cpp:63-85 | The k-th pop returns the k-th push, LLEN is pushes minus pops, and the queue holds the later pushes in their order. |
| ProtocolHistory.BoundedHistoryRefines | shared/src/auth.cpp:133-140 | With any interleaving of many handlers' pushes and trims, a stored history is a prefix of the full newest-first one, with at least 100 entries or all of them and at most 100 plus the pending trims. |
| ProtocolHistory.PageIsUnaffectedByTrimming | shared/src/auth.cpp:142-155 | LRANGE 0 49 always returns the first 50 of the untrimmed history. |
| ProtocolHistory.FullHistoryIsSubmissions | api/src/server.cpp:226 | The full history of a user lists exactly the submissions that this user's handlers have recorded. |
| ProtocolReaders.HistoryReaderShowsThePage | api/src/server.cpp:134-151 | From its listing read on, what a history reader has shown, followed by what it still has to show, is exactly the first 50 of that user's full history at that read, in order, whatever happens afterwards. |
| ProtocolReaders.HistoryReaderBegins | api/src/server.cpp:130-134 | A history reader that begins has that listing read to do until its own first step. |
| ProtocolReaders.PollShowsItsSubmission | api/src/server.cpp:237-257 | A poll goes through exactly its one submission. |
| ProtocolReaders.ReaderCanFinish | api/src/server.cpp:136-151 | A reader that has listed can always show all the rest with its own steps. |
| ProtocolReaders.HandlerCanFinish | api/src/server.cpp:219-234 | A submit handler that has begun can always finish with its own steps. |
| ProtocolReaders.PositionIsQueueLength | api/src/server.cpp:232 | The position in a 202 is the number of pushes minus the number of pops at that moment. |
| ProtocolLiveness.ShutdownIsBounded | worker/src/worker.cpp:21-23 | After stop(), in any continuation, the threads take at most a fixed number of further steps in all, and each pops at most one more job, only if it had passed its test of the flag. |
| ProtocolLiveness.StartAndStop | worker/src/worker.cpp:12-23 | start() gives the pool one thread per worker, still to connect and with the flag set, and never more; once stop() has cleared the flag it stays so. |
| ProtocolLiveness.NoThreadIsStuck | worker/src/worker.cpp:31-59 | A thread that has not exited always has a step, if evaluation returns. |
| ProtocolLiveness.ShutdownCompletes | worker/src/worker.cpp:21-29 | From every reachable state after stop(): a run that leaves no thread a step leaves all threads exited, so join() returns; so does every run with enough worker steps; and there is such a run, of worker steps alone. |
| ProtocolLiveness.JoinedPool | worker/src/worker.cpp:25-29 | When all threads have exited no job is in anybody's hands, every popped job is finished with a terminal result of its own, and the unpopped jobs are queued in order. |
| ProtocolLiveness.WorkRunsOut | worker/src/worker.cpp:41-58 | With no new submits, every working step of the pool lowers a measure over queue and program counters and nothing raises it. |
| ProtocolLiveness.ProgressIsPossible | worker/src/worker.cpp:41-58 | While the pool runs and work is left, one worker alone can lower that measure within three steps. |
| ProtocolLiveness.WorkersCanFinish | worker/src/worker.cpp:41-58 | From every reachable state in which the pool runs, steps of the workers alone can exhaust that measure. |
| ProtocolLiveness.ExhaustedMeansJudged | web/app.js:331-333 | When the measure is exhausted, every accepted job has a stored result on whose verdict pollers stop, and a poll shows it until it expires. |
| ProtocolLiveness.StatusCanEndPending | api/src/server.cpp:219-225 | A reachable state in which the job is finished, its status key says PENDING and its result key has a terminal verdict. |
| ProtocolInvariant.StepKeeps | worker/src/worker.cpp:31-59 | Every step of every handler, worker, reader and clock keeps the invariant that ties queue, workers, handlers, keys and history together. |
| ProtocolInvariant.ReachableInv | api/src/server.cpp:174-257 | The invariant holds in every state that some interleaving reaches. |
| Lossy.RepeatIsHarmless | shared/src/redis_client.cpp:45-61 | A SET or LTRIM that is sent twice leaves the world as if only the second had run, whatever anyone did before, in between and after, and however long it took. |
| Lossy.EveryCopyIsAccountedFor | shared/src/redis_client.cpp:63-85 | With lost replies and one re-send: pops take copies in push order; each copy is in exactly one of queued, in transit, held, finished, dropped; drops only come from pops whose reply was lost; an enqueue call has at most two copies, exactly those of its transmissions that arrived, and at least one if it succeeded. |
| Lossy.BooksFollowTheStore | shared/src/redis_client.cpp:63-85 | The queue of the account is the store's: a transmission that arrives does to it what the operation does, a pop takes the job that the operation answers, and nothing else moves it. |
| Lossy.DuplicatesHappen | shared/src/redis_client.cpp:53-58 | A history in which one successful enqueue call leaves two copies. |
| Lossy.DifferenceStays | shared/src/redis_client.cpp:53-58 | A difference that a repeatable command will set right never spreads, whatever operation anyone performs. |
| Lossy.StableExactlyWhen | worker/src/worker.cpp:47-53 | However often a job is pushed, popped and judged: once a read has shown v, no later read of the result key shows another verdict if and only if every result written from then on has verdict v. |
| RedisClient.Client.ExecCommand | shared/src/redis_client.cpp:45-61 | Whoever else is active: how often the command is applied and whether a reply comes back is exactly what the connection's next one or two transmissions make of it, with a second one exactly after an I/O loss and a successful reconnect; a reply is the typed answer at the moment of the application it answers. |
| RedisClient.OneLossIsHealed | shared/src/redis_client.cpp:53-60 | A connected call brings a reply exactly if the first transmission is answered, or is lost to an I/O error from which the reconnect recovers and the second is answered; the command has then run twice if only the first reply was lost. What was given up for another error is never sent again, and after a failed reconnect there is no connection. |
| RedisClient.Client.EnqueueJob | shared/src/redis_client.cpp:63-70 | One LPUSH call of the encoded job; true exactly if a reply came. |
| RedisClient.Client.DequeueJob | shared/src/redis_client.cpp:72-85 | One BRPOP call; returns exactly the job in its reply, none if it is empty or never came. |
| RedisClient.Client.SetStatus | shared/src/redis_client.cpp:87-95 | One SET EX 86400 of the verdict's name; true exactly if a reply came. |
| RedisClient.Client.GetStatus | shared/src/redis_client.cpp:97-107 | One GET; returns exactly the status in its reply, none if it is nil or never came. |
| RedisClient.Client.SetResult | shared/src/redis_client.cpp:109-117 | One SET EX 86400 of the encoded result; true exactly if a reply came. |
| RedisClient.Client.GetResult | shared/src/redis_client.cpp:119-129 | One GET; returns exactly the decoded result in its reply, none if it is nil or never came. |
| RedisClient.Client.QueueLength | shared/src/redis_client.cpp:131-140 | One LLEN; the length in its reply, or -1 exactly if none came. |
| RedisClient.Client.RawGet | shared/src/redis_client.cpp:142-144 | One GET of a user or token key; the raw reply decodes to the typed answer. |
| RedisClient.Client.RawSet | shared/src/redis_client.cpp:146-160 | One SET of a user or token key, with or without expiry; true exactly if a reply came. |
| RedisClient.Client.RawLPush | shared/src/redis_client.cpp:162-164 | One LPUSH to a history, and whether it was answered. |
| RedisClient.Client.RawLTrim | shared/src/redis_client.cpp:166-172 | One LTRIM of a history; true exactly if a reply came. |
| RedisClient.Client.RawLRange | shared/src/redis_client.cpp:174-176 | One LRANGE; the raw reply lists the slice of the typed history at the moment of the call. |
| RedisClient.RunsInTurn | shared/src/redis_client.cpp:45-61 | Scripts of calls compose under faults and interference: how often each call was applied, that its reply is true, and the order of the replies are kept. |
| Keyspace.KeysAreDistinct | shared/include/ocpe/redis_client.hpp:17-19 | No two keys of the typed store share a text: no prefix is a prefix of another or of the queue's key. |
| Keyspace.CommandSimulates | shared/src/redis_client.cpp:63-140 | One command on the flat store does exactly what the typed operation says, to its own key, and its reply decodes to the typed answer. |
| Keyspace.RunSimulates | shared/src/redis_client.cpp:63-176 | Over every run of any clients in any order the flat store stays the faithful image of separate maps and a queue. |
| Codec.EncodeResult | shared/src/json_utils.cpp:50-67 | The encoder's append loop builds the document that the decoder inverts. |
| Codec.DecodeResult | shared/src/json_utils.cpp:69-88 | The decoder's append loop returns the decoded record, or nothing where the library would throw. |
| Codec.JobRoundTrip | shared/src/json_utils.cpp:5-24 | A job read back from the queue is the job that was enqueued. |
| Codec.ResultRoundTrip | shared/src/json_utils.cpp:26-88 | A stored result reads back unchanged, with any number of tests and any verdicts. |
| Codec.JobMembers | shared/src/json_utils.cpp:5-24 | Each member of a job's document carries the field of its own name, and missing ones have their defaults. |
| Codec.ResultTexts | shared/src/json_utils.cpp:50-88 | Each text of a result's document carries the field of its own name. |
| Codec.ResultNumbers | shared/src/json_utils.cpp:50-88 | So do its verdict and each of its numbers. |
| Codec.TestNumbers | shared/src/json_utils.cpp:26-48 | Each number of a test's document carries the field of its own name. |
| Codec.TestTexts | shared/src/json_utils.cpp:26-48 | So do its verdict and each of its texts. |
| Codec.TestsInOrder | shared/src/json_utils.cpp:62-65 | The array of tests has one element per test, in order. |
| Verdicts.NameRoundTrip | shared/src/submission.cpp:5-32 | Decoding a verdict's name gives the verdict back, for all ten. |
| Verdicts.DecodeInverts | shared/src/submission.cpp:21-32 | Re-encoding a decoded text gives it back if and only if it is one of the ten names; any other text decodes to INTERNAL_ERROR. |
| Verdicts.PollersStopOn | web/app.js:331-333 | The names on which the web client stops polling are exactly those of the terminal verdicts. |
| Auth.BearerTokens | shared/src/auth.cpp:47-54 | A header yields a non-empty token if and only if it is the prefix followed by that token. |
| Auth.AuthService.HashPassword | shared/src/auth.cpp:21-30 | The digest loop builds the two-digit hex text of the digest of salt and password. |
| Auth.AuthService.GenerateSalt | shared/src/auth.cpp:32-41 | 32 hex digits, one for each of the next 32 draws. |
| Auth.AuthService.GenerateToken | shared/src/auth.cpp:43-45 | Two salts in a row. |
| Auth.TokenDigits | shared/src/auth.cpp:32-45 | Each of the 64 digits of a token comes from a draw of its own, in order. |
| Auth.AuthService.RegisterUser | shared/src/auth.cpp:56-89 | Whoever else is active and whatever is lost: a rejected request touches nothing; a name is taken exactly if the look's reply shows a record; otherwise the salted record is stored, even when the look's reply was lost, with success exactly if the store was answered. Alone, world and error are those of Credentials.Register. |
| Auth.RegistrationIsTruthful | shared/src/auth.cpp:73-80 | A registration is refused exactly if its name is taken at the moment of its look. |
| Auth.AuthService.Login | shared/src/auth.cpp:91-118 | Whoever else is active: a token is stored exactly if the record in the look's reply matches the password, and handed out exactly if the store was answered. Alone, success and world are those of Credentials.Login. |
| Auth.LoginIsTruthful | shared/src/auth.cpp:91-118 | A login goes on to issue a token exactly if it would succeed in the world at the moment of its look. |
| Auth.AuthService.ValidateToken | shared/src/auth.cpp:120-131 | The empty token is refused without a look; otherwise the user is exactly the text in the reply of one GET. |
| Auth.ValidationIsTruthful | shared/src/auth.cpp:120-131 | The user that a token is found to have is its live owner at the moment of the look. |
| Auth.AuthService.RecordSubmission | shared/src/auth.cpp:133-140 | LPUSH then LTRIM 0 99; no trim, and false, exactly if the push got no reply. |
| Auth.AuthService.GetUserSubmissions | shared/src/auth.cpp:142-155 | The copying loop returns exactly the ids in the reply of one LRANGE, none if it never came. |
| Credentials.RecordNeverChanges | shared/src/auth.cpp:74-86 | In a sequential run a user's record, once there, never changes. |
| Credentials.SplitRecovers | shared/src/auth.cpp:103-107 | The first colon of a stored record gives salt and hash back, whatever the hash, if the salt has no colon. |
| Credentials.HexInjective | shared/src/auth.cpp:25-29 | Different digests have different hex texts. |
| Credentials.HexAt | shared/src/auth.cpp:25-29 | Byte k is written as two digits of 0123456789abcdef, the high one first. |
| Credentials.RejectedExactlyWhen | shared/src/auth.cpp:58-71 | Each of the three complaints has its exact condition, in the order of the checks. |
| Credentials.FirstColonIsFirst | shared/src/auth.cpp:103-104 | The split is at a colon with none before it, and fails exactly without one. |
| Credentials.LoginMatchesRegistration | shared/src/auth.cpp:91-108 | After u registered with p, and whatever follows, login(u, q) succeeds if and only if q and p have the same digest under that salt. |
| Credentials.OneRegistrationPerName | shared/src/auth.cpp:73-80 | In a sequential run at most one registration of a name succeeds. |
| Credentials.TokensAreExact | shared/src/auth.cpp:110-131 | With fresh tokens, a token validates to u if and only if a login of u issued it less than 604800 s ago. |
| Registrations.PastTheLook | shared/src/auth.cpp:73-88 | In every interleaving of registrations of one free name over the store, with lost replies and other clients: a call gets past its look if and only if that came before every store or lost its reply, and succeeds if and only if moreover its store was answered. |
| Registrations.BothSucceedExactlyWhen | shared/src/auth.cpp:73-88 | Two callers both succeed if and only if each of their looks came before the other's store, or lost its reply. |
| Registrations.LaterCallIsRefused | shared/src/auth.cpp:73-80 | A call that looks after another has succeeded is refused, if its look is answered: at most one of several calls that do not overlap succeeds. |
| Registrations.RecordIsLast | shared/src/auth.cpp:82-86 | The record is always the one whose store was applied last. |
| Registrations.LoginAfterwards | shared/src/auth.cpp:91-108 | After such a contest a login succeeds if and only if its password has the last record's digest under the last record's salt. |
| Registrations.BothRegister | shared/src/auth.cpp:73-88 | Two callers that look in turn and then store in turn both succeed, and the first can log in only if its password has the other's digest. |
| Api.ApiServer.RequireAuth | api/src/server.cpp:23-39 | A missing header and a bad token fail differently; otherwise the user is exactly the one in the reply to the look at the bearer token. |
| Api.ApiServer.Submit | api/src/server.cpp:174-235 | Whoever else is active: each failing check answers with its own error and touches nothing but the token; an accepted request makes exactly the calls of the handler for a job with a normalised language and a fresh stretch of id digits, with the response that their replies determine. |
| Api.ApiServer.Accept | api/src/server.cpp:219-234 | 503 exactly if the enqueue got no reply, and then nothing else is written; otherwise status, history and queue length follow in this order, without the trim exactly if the push got no reply, and the position is the one in the last reply. |
| Api.ApiServer.PollSubmission | api/src/server.cpp:237-257 | Whoever else is active: the result exactly if the first reply shows one; otherwise the status is read second and shown exactly if its reply has one; 404 otherwise. |
| Api.ApiServer.UserSubmissions | api/src/server.cpp:130-153 | Whoever else is active: one poll for each id in the range's reply, in order, and exactly the lines that their replies lead to, PENDING where neither key was there. |
| Api.ApiServer.GenerateSubmissionId | shared/src/problem_loader.cpp:89-101 | 32 hex digits, one for each of the next 32 draws, which are used up. |
| Api.ReaderIsPoll | api/src/server.cpp:241-254 | The readers of the protocol machine are these handlers: whatever others do between the two reads, a reader that makes its reads at the same two moments shows what the poll shows. |
| Api.ReaderIsListing | api/src/server.cpp:134-151 | The listing read of a history reader is the range of the handler: at the same moment it takes up exactly the ids that the handler polls, in order. |
| Api.LineShows | api/src/server.cpp:136-150 | A line has the verdict that a reader shows, PENDING for none, and the result's own problem, language and counts. |
| Api.PollCodes | api/src/server.cpp:241-256 | 404 exactly if the replies showed neither a result nor a status, else 200. |
| Api.SubmittedMembers | api/src/server.cpp:187-215 | Each complaint has its exact condition on the members of the body, in the order of the checks, and each member reaches its own field of the job. |
| Api.MissingMembers | api/src/server.cpp:178-195 | A missing member counts as empty, a missing language as C. |
| Api.AcceptedOnTheLine | api/src/server.cpp:219-233 | A request that passed its checks gets 202 exactly if the connection brings the enqueue's reply, at once or after one healed loss, and else 503. |
| Api.LanguageEndToEnd | api/src/server.cpp:197-214 | The job of an accepted request keeps one language through queue, evaluator and result; it is in the table, the source file has its extension, and COMPILATION_ERROR means exactly a failed compiler. |
| WorkerPool.WorkerPool.Start | worker/src/worker.cpp:12-19 | The flag is set and one joinable thread per configured worker is added, numbered from 0. |
| WorkerPool.WorkerPool.Join | worker/src/worker.cpp:25-29 | Every thread has been joined and none is forgotten. |
| WorkerPool.WorkerPool.AwaitRedis | worker/src/worker.cpp:33-37 | Connecting ends with the first attempt that succeeds, or gives up when the flag is found cleared after a failed one. |
| WorkerPool.WorkerPool.Judge | worker/src/worker.cpp:47-53 | COMPILING, RUNNING, the result, its verdict, in this order, under every fault; and the result says of the job what Evaluator.Decides demands in its surroundings. |
| WorkerPool.WorkerPool.WorkerLoop | worker/src/worker.cpp:31-59 | Whoever else is active: every time the flag is found set pays for one failed connect or one round; the calls are exactly the rounds, each a pop and the judging of exactly the job in its reply. |
| WorkerPool.RoundIsTruthful | worker/src/worker.cpp:41-53 | The job of a round was the oldest in the queue at the moment of its pop. |
| WorkerPool.ResultIsJudgement | worker/src/worker.cpp:50 | What a worker stores is decided by the problem, the compiler's outcome and the observed run of each of its cases, and by nothing else. |
| WorkerPool.JudgementOfTests | worker/src/evaluator.cpp:58-88 | Past the compiler, the verdict of each test is that of its own run, all tests are counted, and the last one's verdict is the whole one's. |
| WorkerPool.DrainsInOrder | worker/src/worker.cpp:41-58 | A worker that has the system to itself takes the jobs in queue order, and after n turns exactly the n oldest have a result that says what it must of them, with its verdict as status, and the others wait in order. |
| Streams.Collect | sandbox/src/sandbox.cpp:145-189 | For every schedule of writes and reads: ended by reaping, each buffer is all that was written to its stream; ended by the deadline, the prefix read so far, which has all that was readable long enough before. |
| Streams.Poll | sandbox/src/sandbox.cpp:160-171 | Reading a chunk moves it from the pipe to the end of the buffer and loses nothing. |
| Streams.Drain | sandbox/src/sandbox.cpp:177-186 | The drain loop returns all that is left in the pipe. |
| Streams.TickTakes | sandbox/src/sandbox.cpp:157-171 | An iteration reads nothing exactly if the stream is not flagged or nothing is unread, and at most 4096 bytes. |
| Streams.FlaggedTicksRead | sandbox/src/sandbox.cpp:145-171 | After n iterations in a row that find a stream flagged, n bytes more have been read, or all that was written before them. |
| Streams.WrittenInPlace | sandbox/src/sandbox.cpp:160-171 | What the child writes in an iteration stands in its stream right behind what it wrote before. |
| Streams.StreamsAreIndependent | sandbox/src/sandbox.cpp:160-171 | What is read of one stream depends on that stream alone. |
| Streams.ReadPrefixGrows | sandbox/src/sandbox.cpp:145-189 | What has been read is a growing prefix of what was written. |
| Output.TrimOutput | sandbox/src/sandbox.cpp:22-32 | The two index loops compute the trimmed text. |
| Output.TrimIsTheCore | sandbox/src/sandbox.cpp:22-32 | Trimming is idempotent and returns the unique core that has no whitespace at either end. |
| Output.MatchIsLeastEquivalence | sandbox/src/sandbox.cpp:34-36 | Outputs match if and only if they are related by the least equivalence closed under adding one of the four whitespace characters at an end. |
| Sandbox.Run | sandbox/src/sandbox.cpp:38-261 | For every launch and schedule the result filled in field by field is the judgement of what was observed. |
| Sandbox.RuntimeErrorExactlyWhen | sandbox/src/sandbox.cpp:210-240 | RUNTIME_ERROR exactly if in time the child ended with a non-zero code, or a signal other than 24 and 9 that is not 11 or 6 near the memory limit. |
| Sandbox.MemoryLimitExactlyWhen | sandbox/src/sandbox.cpp:210-246 | MEMORY_LIMIT_EXCEEDED exactly if in time the child crashed with 11 or 6 near the limit, or ended with 0 after more than the limit. |
| Sandbox.TimeLimitExactlyWhen | sandbox/src/sandbox.cpp:210-252 | TIME_LIMIT_EXCEEDED exactly past the deadline, on signal 24 or 9, or on code 0 within the memory limit after a whole millisecond of CPU time more than the limit. |
| Sandbox.OutputDecidesExactlyWhen | sandbox/src/sandbox.cpp:210-258 | ACCEPTED and WRONG_ANSWER exactly in time with code 0 within both limits, and the output decides which. |
| Sandbox.ReportIsMeasured | sandbox/src/sandbox.cpp:198-208 | The report has the exit code or -1, whole milliseconds of CPU time, the peak memory in KB and both streams, for measures in the range of an int. |
| Sandbox.MessagesTell | sandbox/src/sandbox.cpp:210-240 | Only ACCEPTED and WRONG_ANSWER come without a message, and that of a RUNTIME_ERROR tells the code or the signal. |
| Sandbox.TimedOutExactlyWhen | sandbox/src/sandbox.cpp:139-150 | The clock ends a run exactly if the parent, not having reaped the child yet, finds it more than 500 ms past the limit. |
| Sandbox.ObservedStreams | sandbox/src/sandbox.cpp:145-199 | What is observed of a run are its own two streams, whole if it was reaped, and the status and usage that the final wait left. |
| Sandbox.AcceptedSurvivesLooserLimits | sandbox/src/sandbox.cpp:210-258 | Looser limits never lose an ACCEPTED, and what is accepted matched up to whitespace at its ends. |
| Sandbox.PaddingIsInvisible | sandbox/src/sandbox.cpp:254-258 | Whitespace at the ends of the output never changes a verdict. |
| Sandbox.FailedSecondWait | sandbox/src/sandbox.cpp:194-208 | When `wait4` fails, only the deadline and the output decide, and time and memory are reported as 0. |
| Sandbox.FailedWaitAgrees | sandbox/src/sandbox.cpp:194-258 | The verdict after a failed `wait4` is the one that the child's own status and usage would lead to if and only if the child exited with 0 within both measured limits. |
| Sandbox.CrashIsAccepted | sandbox/src/sandbox.cpp:194-258 | A child that crashes after printing the expected text is ACCEPTED when `wait4` fails, where its own status leads to RUNTIME_ERROR. |
| Sandbox.CpuCapBounds | sandbox/src/sandbox.cpp:80-86 | For every non-overflowing positive limit the cap in CPU seconds is at least the limit and under a second above it. |
| Sandbox.MillisecondCheckExact | sandbox/src/sandbox.cpp:203-205 | The check on truncated milliseconds fires if and only if CPU microseconds reach 1000 * (limit + 1). |
| Sandbox.NoFalseTimeouts | sandbox/src/sandbox.cpp:139-148 | A run reaped below the limit in wall time, with less CPU time than the limit, is TIME_LIMIT_EXCEEDED if and only if it died from SIGXCPU or SIGKILL; from SIGKILL alone if SIGXCPU only comes from an exceeded cap. |
| Evaluator.RunAllTestCases | sandbox/src/runner.cpp:20-41 | One result per case, in order, with index i and the judgement of run i; stderr stands in for a missing message. |
| Evaluator.EvaluateSubmission | worker/src/evaluator.cpp:15-94 | Early exits, aggregation loop and final branches compute the result of the specification for every job and environment. |
| Evaluator.EvaluationDecides | worker/src/evaluator.cpp:20-94 | For every job and environment: the exact outcome without a problem, without a supported language and after a failed compiler; else one record per case that tells index, expected and observed output, verdict, message, time and memory of its own run, the exact count of passed tests and exact maxima, and the last test's verdict. |
| Evaluator.PassedIsExact | worker/src/evaluator.cpp:73-77 | `passed` is the number of ACCEPTED tests, and equals the number of tests if and only if all are. |
| Evaluator.MaximaAreExact | worker/src/evaluator.cpp:73-77 | The maxima bound every test and are 0 or reached by one. |
| Evaluator.AggregationCollapses | worker/src/evaluator.cpp:79-88 | For non-empty results the counting branches always yield the last test's verdict, PENDING read as WRONG_ANSWER. |
| Evaluator.AcceptedWithFailures | worker/src/evaluator.cpp:79-88 | A submission is ACCEPTED with a failed test if and only if the last test passed and an earlier one did not. |
| Evaluator.LastTestAloneDecides | worker/src/evaluator.cpp:79-88 | [WRONG_ANSWER, ACCEPTED] aggregates to ACCEPTED although not every test passed. |
| Evaluator.AcceptedSubmissionFailsTests | worker/src/evaluator.cpp:58-88 | A whole submission is reported ACCEPTED with fewer tests passed than there are if and only if its last run was ACCEPTED and an earlier one was not. |
| Evaluator.OnePassedOfTwo | worker/src/evaluator.cpp:58-88 | A program that prints 2 and then 1 where 1 is expected is ACCEPTED with one test passed of two. |
| Evaluator.EvaluationEndsTerminally | worker/src/evaluator.cpp:15-94 | Every evaluation ends in one of the seven verdicts that pollers stop on, under the job's own id, user and problem. |
| Evaluator.UnsupportedBranchIsDead | worker/src/evaluator.cpp:33-37 | For a supported language COMPILATION_ERROR means exactly that the compiler failed. |
| Loader.LoadTestCases | shared/src/problem_loader.cpp:65-87 | Over any file system, the longest contiguous readable prefix of numbered pairs, capped at 10000, each with the content of its .in and its .out file. |
| Loader.GetProblem | shared/src/problem_loader.cpp:50-63 | Found if and only if its record opens; the count is the length of that prefix. |
| Loader.CountListed | shared/src/problem_loader.cpp:35-43 | The unbounded loop ends on every finite file system with the number of contiguously listed inputs. |
| Loader.CountsAgree | shared/src/problem_loader.cpp:35-87 | The listed count is never below the loaded one, and they are equal if and only if the listed count is at most 10000 and every listed pair opens. |
| Loader.UnpairedInput | shared/src/problem_loader.cpp:35-87 | A directory with 0.in and no 0.out is listed with 1 case and loaded with 0. |
| Loader.InPathInjective | shared/src/problem_loader.cpp:71-72 | Numbered file names are pairwise different. |
| Decimal.DigitsValue | shared/src/problem_loader.cpp:71-72 | The decimal text of a number reads back as that number. |
| Languages.NormalizeIdempotent | sandbox/src/language.cpp:32-39 | Normalising twice is normalising once, for every text. |
| Languages.StagesAgree | sandbox/src/language.cpp:16-39 | Support, extension and compiler do not change under normalisation and belong to one row of the table. |
| Languages.FallbackExactlyWhenUnsupported | sandbox/src/language.cpp:24-30 | The ".c" fall-back is used if and only if the language is not supported. |
| Languages.SupportedExactlyWhen | sandbox/src/language.cpp:16-39 | Case apart, seven names are supported, and each stands for one of three languages. |
| Languages.CaseIsIgnored | sandbox/src/language.cpp:32-39 | Texts that differ in the case of letters alone have the same normal form. |

## Left out

- HTTP parsing and routing, CORS, the JSON library's text format, the Redis wire format and the inside of SHA-256: a document is a JSON value, a command is atomic, the digest is any function to 32 bytes.
- JSON member names: an enumeration with one constructor per name, so the spelling of the names is not modelled.
- Exceptions of the JSON and file-system libraries: a submit body whose members have the wrong type is excluded by a precondition, and documents that do not decode never get into the store of the model.
- NUL bytes and invalid UTF-8 in texts and keys, and locale-dependent character classes: `tolower` and `isalnum` are those of the C locale.
- Sharing one Redis context between the API server's request threads: each call is one sequence of transmissions.
- The blocking of BRPOP: a pop of an empty queue answers nothing at once, which is its answer after the timeout.
- `fork`, `exec`, `setrlimit`, `setuid`, the compiler's process and the writing of source files: what they lead to is an arbitrary launch, schedule of ticks and compile outcome.
- Other processes that hold a pipe open, and reads that fail: each pipe has one writer and a read returns what is there.
- 32-bit overflow of limits, sizes and counters: they are integers without bound, except the conversions of CPU milliseconds and resident size, which wrap.
- The randomness of ids, salts and tokens: an arbitrary source of hex digits; freshness is a hypothesis where a theorem needs it.
- A pool that is started twice: the protocol machine starts its pool once.
- The listing of problem directories, `/auth/register`, `/auth/login`, `/auth/me`, `/problems`, `/languages`, `/stats` and `/health` as handlers: each is one or two of the modelled operations in a row.
- The web UI, the load test, the stress-test generator, deployment and configuration.
- ProtocolVerdicts.ReadsInTimeShowTheVerdict: the machine's commands succeed and its ids are fresh, so a job is judged once; what a job that is judged twice does to polls is Lossy.StableExactlyWhen.
- ProtocolLiveness.WorkersCanFinish: says that the work can always be finished, not that a scheduler without fairness will do it.
- WorkerPool.WorkerPool.Join: records that a thread has been waited for; that the threads do exit is ShutdownIsBounded and ShutdownCompletes.
- WorkerPool.WorkerPool.WorkerLoop: the flag's changes are given as the number of times it is still found set; the thread's interleaving with others is the server's schedule here and the actions of the machine in Protocol.
- Sandbox.Run: the comparison with nine tenths of the memory limit is exact arithmetic, where sandbox/src/sandbox.cpp:222 multiplies a double by 0.9.
- RedisClient.Client.RawGet: only the keys of users and tokens, which are the keys it is used for.

/** The shared store as the rest of the system thinks of it: one job queue and separate typed maps.
    Every operation is one atomic Redis command; time is a clock in whole seconds. */
module Store {
  import opened Verdicts

  const RETENTION := 86400
  const TOKEN_TTL := 604800
  const HISTORY_LIMIT := 100
  const HISTORY_PAGE := 50

  /** A value that can be read strictly before its deadline. */
  datatype Timed<+T> = Timed(value: T, deadline: nat)

  /** The queue and the histories have their newest element first. */
  datatype Store = Store(
    queue: seq<SubmissionJob>,
    statuses: map<string, Timed<Verdict>>,
    results: map<string, Timed<SubmissionResult>>,
    users: map<string, string>,
    tokens: map<string, Timed<string>>,
    histories: map<string, seq<string>>)

  const EMPTY := Store([], map[], map[], map[], map[], map[])

  datatype Op =
    | EnqueueJob(job: SubmissionJob)
    | DequeueJob
    | QueueLength
    | SetStatus(id: string, verdict: Verdict)
    | GetStatus(id: string)
    | SetResult(result: SubmissionResult)
    | GetResult(id: string)
    | PutUser(user: string, payload: string)
    | GetUser(user: string)
    | PutToken(token: string, user: string)
    | GetToken(token: string)
    | PushHistory(user: string, id: string)
    | TrimHistory(user: string)
    | RangeHistory(user: string, limit: int)

  datatype Reply =
    | Acknowledged
    | Length(n: nat)
    | Job(job: Option<SubmissionJob>)
    | Status(verdict: Option<Verdict>)
    | Result(result: Option<SubmissionResult>)
    | Text(text: Option<string>)
    | Ids(ids: seq<string>)

  datatype World = World(store: Store, now: nat)

  datatype Event = Do(op: Op) | Wait(seconds: nat)

  function Live<T>(m: map<string, Timed<T>>, key: string, now: nat): Option<T> {
    if key in m && now < m[key].deadline then Some(m[key].value) else None
  }

  function Find<T>(m: map<string, T>, key: string): Option<T> {
    if key in m then Some(m[key]) else None
  }

  function ListOf(m: map<string, seq<string>>, user: string): seq<string> {
    if user in m then m[user] else []
  }

  function HistoryOf(s: Store, user: string): seq<string> {
    ListOf(s.histories, user)
  }

  /** The elements from `start` to `stop` inclusive, as LRANGE and LTRIM count them: negative positions
      are counted from the end. */
  function Slice<T>(list: seq<T>, start: int, stop: int): seq<T> {
    var n := |list|;
    var first := if start < 0 then (if n + start < 0 then 0 else n + start) else start;
    var last := if stop < 0 then n + stop else if stop >= n then n - 1 else stop;
    if first > last || first >= n then [] else list[first..last + 1]
  }

  function WithHistory(s: Store, user: string, list: seq<string>): Store {
    if list == [] then s.(histories := s.histories - {user}) else s.(histories := s.histories[user := list])
  }

  function Perform(s: Store, now: nat, op: Op): Store {
    match op
    case EnqueueJob(job) => s.(queue := [job] + s.queue)
    case DequeueJob => if s.queue == [] then s else s.(queue := s.queue[..|s.queue| - 1])
    case SetStatus(id, v) => s.(statuses := s.statuses[id := Timed(v, now + RETENTION)])
    case SetResult(r) => s.(results := s.results[r.submissionId := Timed(r, now + RETENTION)])
    case PutUser(u, payload) => s.(users := s.users[u := payload])
    case PutToken(t, u) => s.(tokens := s.tokens[t := Timed(u, now + TOKEN_TTL)])
    case PushHistory(u, id) => WithHistory(s, u, [id] + HistoryOf(s, u))
    case TrimHistory(u) => WithHistory(s, u, Slice(HistoryOf(s, u), 0, HISTORY_LIMIT - 1))
    case _ => s
  }

  /** The reply to an operation, from the store it runs on. */
  function Answer(s: Store, now: nat, op: Op): Reply {
    match op
    case EnqueueJob(_) => Length(|s.queue| + 1)
    case DequeueJob => Job(if s.queue == [] then None else Some(s.queue[|s.queue| - 1]))
    case QueueLength => Length(|s.queue|)
    case SetStatus(_, _) => Acknowledged
    case GetStatus(id) => Status(Live(s.statuses, id, now))
    case SetResult(_) => Acknowledged
    case GetResult(id) => Result(Live(s.results, id, now))
    case PutUser(_, _) => Acknowledged
    case GetUser(u) => Text(Find(s.users, u))
    case PutToken(_, _) => Acknowledged
    case GetToken(t) => Text(Live(s.tokens, t, now))
    case PushHistory(u, _) => Length(|HistoryOf(s, u)| + 1)
    case TrimHistory(_) => Acknowledged
    case RangeHistory(u, limit) => Ids(Slice(HistoryOf(s, u), 0, limit - 1))
  }

  function Step(w: World, e: Event): World {
    match e
    case Do(op) => w.(store := Perform(w.store, w.now, op))
    case Wait(seconds) => w.(now := w.now + seconds)
  }

  function Replay(w: World, events: seq<Event>): World {
    if events == [] then w else Step(Replay(w, events[..|events| - 1]), events[|events| - 1])
  }

  /** What a submit handler does to the store once it has accepted a request. */
  function SubmitOps(job: SubmissionJob): seq<Op> {
    [EnqueueJob(job), SetStatus(job.submissionId, Pending), PushHistory(job.username, job.submissionId),
     TrimHistory(job.username), QueueLength]
  }

  /** What a worker does to the store before it evaluates a job, and after. */
  function StartOps(job: SubmissionJob): seq<Op> {
    [SetStatus(job.submissionId, Compiling), SetStatus(job.submissionId, Running)]
  }

  function ReportOps(job: SubmissionJob, result: SubmissionResult): seq<Op> {
    [SetResult(result), SetStatus(job.submissionId, result.verdict)]
  }

  function JudgeOps(job: SubmissionJob, result: SubmissionResult): seq<Op> {
    StartOps(job) + ReportOps(job, result)
  }
}

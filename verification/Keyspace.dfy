/** The flat Redis keyspace under the typed store: every map of the typed store lives under its own key
    prefix, jobs and results are JSON documents, and each typed operation is one command on one key
    (shared/src/redis_client.cpp, shared/src/auth.cpp). */
module Keyspace {
  import opened Codec
  import opened Store
  import opened Verdicts

  const QUEUE_KEY := "ocpe:submission_queue"
  const RESULT_PREFIX := "ocpe:result:"
  const STATUS_PREFIX := "ocpe:status:"
  const USER_PREFIX := "ocpe:user:"
  const TOKEN_PREFIX := "ocpe:token:"
  const USER_SUBS_PREFIX := "ocpe:user_subs:"

  /** A stored byte string: plain text, or the dump of a JSON value. */
  datatype Value = Plain(text: string) | Document(json: Json)

  datatype Entry = Single(value: Value, deadline: Option<nat>) | List(items: seq<Value>)

  type Database = map<string, Entry>

  datatype Command =
    | LPush(key: string, value: Value)
    | BRPop(key: string)
    | LLen(key: string)
    | LTrim(key: string, start: int, stop: int)
    | LRange(key: string, start: int, stop: int)
    | Set(key: string, value: Value, ttl: Option<nat>)
    | Get(key: string)

  datatype RawReply =
    | Ok
    | Nil
    | Integer(n: nat)
    | Bulk(value: Value)
    | Multi(items: seq<Value>)
    | WrongType

  /** The entry under a key, unless it has expired. */
  function Present(db: Database, now: nat, key: string): Option<Entry> {
    if key !in db then None
    else if db[key].Single? && db[key].deadline.Some? && now >= db[key].deadline.value then None
    else Some(db[key])
  }

  function WithList(db: Database, key: string, items: seq<Value>): Database {
    if items == [] then db - {key} else db[key := List(items)]
  }

  function ListAt(e: Option<Entry>): seq<Value>
    requires e.Some? ==> e.value.List?
  {
    if e.Some? then e.value.items else []
  }

  predicate Clashes(e: Option<Entry>) {
    e.Some? && e.value.Single?
  }

  function Execute(db: Database, now: nat, c: Command): Database {
    var e := Present(db, now, c.key);
    if c.Set? then db[c.key := Single(c.value, if c.ttl.Some? then Some(now + c.ttl.value) else None)]
    else if Clashes(e) then db
    else
      match c
      case LPush(key, value) => WithList(db, key, [value] + ListAt(e))
      case BRPop(key) => if ListAt(e) == [] then db else WithList(db, key, ListAt(e)[..|ListAt(e)| - 1])
      case LTrim(key, start, stop) => WithList(db, key, Slice(ListAt(e), start, stop))
      case _ => db
  }

  function ReplyTo(db: Database, now: nat, c: Command): RawReply {
    var e := Present(db, now, c.key);
    if c.Set? then Ok
    else if c.Get? then
      if e.None? then Nil else if e.value.List? then WrongType else Bulk(e.value.value)
    else if Clashes(e) then WrongType
    else
      match c
      case LPush(_, _) => Integer(|ListAt(e)| + 1)
      case BRPop(key) =>
        if ListAt(e) == [] then Nil else Multi([Plain(key), ListAt(e)[|ListAt(e)| - 1]])
      case LLen(_) => Integer(|ListAt(e)|)
      case LTrim(_, _, _) => Ok
      case LRange(_, start, stop) => Multi(Slice(ListAt(e), start, stop))
  }

  /** The kinds of key. */
  datatype Key =
    | QueueKey
    | ResultKey(id: string)
    | StatusKey(id: string)
    | UserKey(user: string)
    | TokenKey(token: string)
    | HistoryKey(user: string)

  function KeyText(k: Key): string {
    match k
    case QueueKey => QUEUE_KEY
    case ResultKey(id) => RESULT_PREFIX + id
    case StatusKey(id) => STATUS_PREFIX + id
    case UserKey(u) => USER_PREFIX + u
    case TokenKey(t) => TOKEN_PREFIX + t
    case HistoryKey(u) => USER_SUBS_PREFIX + u
  }

  /** The one command of a typed operation. */
  function CommandFor(op: Op): Command {
    match op
    case EnqueueJob(job) => LPush(KeyText(QueueKey), Document(JobToJson(job)))
    case DequeueJob => BRPop(KeyText(QueueKey))
    case QueueLength => LLen(KeyText(QueueKey))
    case SetStatus(id, v) => Set(KeyText(StatusKey(id)), Plain(ToString(v)), Some(RETENTION))
    case GetStatus(id) => Get(KeyText(StatusKey(id)))
    case SetResult(r) => Set(KeyText(ResultKey(r.submissionId)), Document(ResultToJson(r)), Some(RETENTION))
    case GetResult(id) => Get(KeyText(ResultKey(id)))
    case PutUser(u, payload) => Set(KeyText(UserKey(u)), Plain(payload), None)
    case GetUser(u) => Get(KeyText(UserKey(u)))
    case PutToken(t, u) => Set(KeyText(TokenKey(t)), Plain(u), Some(TOKEN_TTL))
    case GetToken(t) => Get(KeyText(TokenKey(t)))
    case PushHistory(u, id) => LPush(KeyText(HistoryKey(u)), Plain(id))
    case TrimHistory(u) => LTrim(KeyText(HistoryKey(u)), 0, HISTORY_LIMIT - 1)
    case RangeHistory(u, limit) => LRange(KeyText(HistoryKey(u)), 0, limit - 1)
  }

  function KeyOf(op: Op): Key {
    match op
    case EnqueueJob(_) => QueueKey
    case DequeueJob => QueueKey
    case QueueLength => QueueKey
    case SetStatus(id, _) => StatusKey(id)
    case GetStatus(id) => StatusKey(id)
    case SetResult(r) => ResultKey(r.submissionId)
    case GetResult(id) => ResultKey(id)
    case PutUser(u, _) => UserKey(u)
    case GetUser(u) => UserKey(u)
    case PutToken(t, _) => TokenKey(t)
    case GetToken(t) => TokenKey(t)
    case PushHistory(u, _) => HistoryKey(u)
    case TrimHistory(u) => HistoryKey(u)
    case RangeHistory(u, _) => HistoryKey(u)
  }

  function JobDocuments(jobs: seq<SubmissionJob>): (values: seq<Value>)
    ensures |values| == |jobs|
  {
    seq(|jobs|, i requires 0 <= i < |jobs| => Document(JobToJson(jobs[i])))
  }

  function Plains(ids: seq<string>): (values: seq<Value>)
    ensures |values| == |ids|
  {
    seq(|ids|, i requires 0 <= i < |ids| => Plain(ids[i]))
  }

  /** What the flat store holds for a key of the typed store. */
  function Encoded(s: Store, k: Key): Option<Entry> {
    match k
    case QueueKey => if s.queue == [] then None else Some(List(JobDocuments(s.queue)))
    case ResultKey(id) =>
      if id in s.results
      then Some(Single(Document(ResultToJson(s.results[id].value)), Some(s.results[id].deadline))) else None
    case StatusKey(id) =>
      if id in s.statuses
      then Some(Single(Plain(ToString(s.statuses[id].value)), Some(s.statuses[id].deadline))) else None
    case UserKey(u) => if u in s.users then Some(Single(Plain(s.users[u]), None)) else None
    case TokenKey(t) =>
      if t in s.tokens then Some(Single(Plain(s.tokens[t].value), Some(s.tokens[t].deadline))) else None
    case HistoryKey(u) => if HistoryOf(s, u) == [] then None else Some(List(Plains(HistoryOf(s, u))))
  }

  function Stored(db: Database, k: Key): Option<Entry> {
    if KeyText(k) in db then Some(db[KeyText(k)]) else None
  }

  /** Every key of the typed store is found in the flat one, under its text and in its encoding. */
  ghost predicate Refines(db: Database, s: Store) {
    forall k: Key :: Stored(db, k) == Encoded(s, k)
  }

  /** How the client reads the raw reply to an operation; None where it would throw or cannot occur. */
  function Decoded(op: Op, r: RawReply): Option<Reply> {
    match op
    case EnqueueJob(_) => if r.Integer? then Some(Length(r.n)) else None
    case DequeueJob =>
      if r.Nil? then Some(Job(None))
      else if r.Multi? && |r.items| >= 2 && r.items[1].Document? then
        var job := JobFromJson(r.items[1].json);
        if job.Some? then Some(Job(job)) else None
      else None
    case QueueLength => if r.Integer? then Some(Length(r.n)) else None
    case SetStatus(_, _) => if r.Ok? then Some(Acknowledged) else None
    case GetStatus(_) =>
      if r.Nil? then Some(Status(None))
      else if r.Bulk? && r.value.Plain? then Some(Status(Some(FromString(r.value.text)))) else None
    case SetResult(_) => if r.Ok? then Some(Acknowledged) else None
    case GetResult(_) =>
      if r.Nil? then Some(Result(None))
      else if r.Bulk? && r.value.Document? then
        var result := ResultFromJson(r.value.json);
        if result.Some? then Some(Result(result)) else None
      else None
    case PutUser(_, _) => if r.Ok? then Some(Acknowledged) else None
    case GetUser(_) => TextReply(r)
    case PutToken(_, _) => if r.Ok? then Some(Acknowledged) else None
    case GetToken(_) => TextReply(r)
    case PushHistory(_, _) => if r.Integer? then Some(Length(r.n)) else None
    case TrimHistory(_) => if r.Ok? then Some(Acknowledged) else None
    case RangeHistory(_, _) => if r.Multi? && AllPlain(r.items) then Some(Ids(Texts(r.items))) else None
  }

  function TextReply(r: RawReply): Option<Reply> {
    if r.Nil? then Some(Text(None)) else if r.Bulk? && r.value.Plain? then Some(Text(Some(r.value.text))) else None
  }

  predicate AllPlain(values: seq<Value>) {
    forall v <- values :: v.Plain?
  }

  function Texts(values: seq<Value>): seq<string>
    requires AllPlain(values)
  {
    seq(|values|, i requires 0 <= i < |values| => values[i].text)
  }

  /** No two keys share a text: each prefix differs from every other, and from the queue's key, at some
      position that both have. */
  lemma KeysAreDistinct(a: Key, b: Key)
    requires KeyText(a) == KeyText(b)
    ensures a == b
  {
    KeyKind(a);
    KeyKind(b);
    match a {
      case QueueKey =>
      case ResultKey(id) => assert KeyText(a)[|RESULT_PREFIX|..] == id; assert KeyText(b)[|RESULT_PREFIX|..] == b.id;
      case StatusKey(id) => assert KeyText(a)[|STATUS_PREFIX|..] == id; assert KeyText(b)[|STATUS_PREFIX|..] == b.id;
      case UserKey(u) => assert KeyText(a)[|USER_PREFIX|..] == u; assert KeyText(b)[|USER_PREFIX|..] == b.user;
      case TokenKey(t) => assert KeyText(a)[|TOKEN_PREFIX|..] == t; assert KeyText(b)[|TOKEN_PREFIX|..] == b.token;
      case HistoryKey(u) =>
        assert KeyText(a)[|USER_SUBS_PREFIX|..] == u; assert KeyText(b)[|USER_SUBS_PREFIX|..] == b.user;
    }
  }

  /** The characters at positions 5, 6 and 9 tell the kind of a key. */
  lemma KeyKind(k: Key)
    ensures |KeyText(k)| >= 10
    ensures k.ResultKey? <==> KeyText(k)[5] == 'r'
    ensures k.TokenKey? <==> KeyText(k)[5] == 't'
    ensures k.QueueKey? <==> KeyText(k)[5] == 's' && KeyText(k)[6] == 'u'
    ensures k.StatusKey? <==> KeyText(k)[5] == 's' && KeyText(k)[6] == 't'
    ensures k.UserKey? <==> KeyText(k)[5] == 'u' && KeyText(k)[9] == ':'
    ensures k.HistoryKey? <==> KeyText(k)[5] == 'u' && KeyText(k)[9] == '_'
  {
  }

  /** A command touches its own key and no other. */
  lemma FlatFrame(db: Database, now: nat, c: Command, key: string)
    requires key != c.key
    ensures key in Execute(db, now, c) <==> key in db
    ensures key in db ==> Execute(db, now, c)[key] == db[key]
  {
  }

  lemma HistoryFrame(s: Store, u: string, list: seq<string>, k: Key)
    requires k != HistoryKey(u)
    ensures Encoded(WithHistory(s, u, list), k) == Encoded(s, k)
  {
    hide Plains, JobDocuments, ResultToJson, ToString;
  }

  /** An operation changes the view of its own key and no other. */
  lemma TypedFrame(s: Store, now: nat, op: Op, k: Key)
    requires k != KeyOf(op)
    ensures Encoded(Perform(s, now, op), k) == Encoded(s, k)
  {
    hide JobDocuments, Plains, Slice, ResultToJson, ToString, KeyText;
    if op.PushHistory? {
      HistoryFrame(s, op.user, [op.id] + HistoryOf(s, op.user), k);
    } else if op.TrimHistory? {
      HistoryFrame(s, op.user, Slice(HistoryOf(s, op.user), 0, HISTORY_LIMIT - 1), k);
    }
  }

  lemma KeyOfCommand(op: Op)
    ensures CommandFor(op).key == KeyText(KeyOf(op))
  {
  }

  lemma SliceOfPlains(ids: seq<string>, start: int, stop: int)
    ensures Slice(Plains(ids), start, stop) == Plains(Slice(ids, start, stop))
    ensures AllPlain(Plains(ids)) && Texts(Plains(ids)) == ids
  {
    var sliced, plains := Slice(ids, start, stop), Slice(Plains(ids), start, stop);
    assert |sliced| == |plains|;
    assert forall i :: 0 <= i < |sliced| ==> plains[i] == Plain(sliced[i]);
    assert plains == Plains(sliced);
  }

  /** The list under the queue's key, or under a history's, is the encoded list. */
  lemma ListUnder(db: Database, s: Store, now: nat, k: Key)
    requires Refines(db, s)
    ensures k.QueueKey? ==>
      !Clashes(Present(db, now, KeyText(k))) && ListAt(Present(db, now, KeyText(k))) == JobDocuments(s.queue)
    ensures k.HistoryKey? ==>
      !Clashes(Present(db, now, KeyText(k))) &&
      ListAt(Present(db, now, KeyText(k))) == Plains(HistoryOf(s, k.user))
  {
    assert Stored(db, k) == Encoded(s, k);
  }

  lemma OwnKeyOfQueue(db: Database, s: Store, now: nat, op: Op)
    requires Refines(db, s) && KeyOf(op) == QueueKey
    ensures Stored(Execute(db, now, CommandFor(op)), QueueKey) == Encoded(Perform(s, now, op), QueueKey)
    ensures Decoded(op, ReplyTo(db, now, CommandFor(op))) == Some(Answer(s, now, op))
  {
    ListUnder(db, s, now, QueueKey);
    assert Stored(db, QueueKey) == Encoded(s, QueueKey);
    match op {
      case EnqueueJob(job) =>
        assert JobDocuments([job] + s.queue) == [Document(JobToJson(job))] + JobDocuments(s.queue);
      case DequeueJob =>
        if s.queue != [] {
          var n := |s.queue| - 1;
          assert JobDocuments(s.queue[..n]) == JobDocuments(s.queue)[..n];
          JobRoundTrip(s.queue[n]);
        }
      case QueueLength =>
    }
  }

  lemma OwnKeyOfHistory(db: Database, s: Store, now: nat, op: Op, u: string)
    requires Refines(db, s) && KeyOf(op) == HistoryKey(u)
    ensures Stored(Execute(db, now, CommandFor(op)), HistoryKey(u)) == Encoded(Perform(s, now, op), HistoryKey(u))
    ensures Decoded(op, ReplyTo(db, now, CommandFor(op))) == Some(Answer(s, now, op))
  {
    ListUnder(db, s, now, HistoryKey(u));
    assert Stored(db, HistoryKey(u)) == Encoded(s, HistoryKey(u));
    var h := HistoryOf(s, u);
    match op {
      case PushHistory(_, id) =>
        assert Plains([id] + h) == [Plain(id)] + Plains(h);
      case TrimHistory(_) =>
        SliceOfPlains(h, 0, HISTORY_LIMIT - 1);
      case RangeHistory(_, limit) =>
        SliceOfPlains(h, 0, limit - 1);
        SliceOfPlains(Slice(h, 0, limit - 1), 0, 0);
    }
  }

  lemma OwnKeyOfText(db: Database, s: Store, now: nat, op: Op)
    requires Refines(db, s) && !KeyOf(op).QueueKey? && !KeyOf(op).HistoryKey?
    ensures Stored(Execute(db, now, CommandFor(op)), KeyOf(op)) == Encoded(Perform(s, now, op), KeyOf(op))
    ensures Decoded(op, ReplyTo(db, now, CommandFor(op))) == Some(Answer(s, now, op))
  {
    hide KeyText, ToString, FromString, ResultToJson, ResultFromJson, JobToJson, JobFromJson;
    assert Stored(db, KeyOf(op)) == Encoded(s, KeyOf(op));
    KeyOfCommand(op);
    match op {
      case SetStatus(_, _) =>
      case GetStatus(id) => if id in s.statuses { NameRoundTrip(s.statuses[id].value); }
      case SetResult(_) =>
      case GetResult(id) => if id in s.results { ResultRoundTrip(s.results[id].value); }
      case PutUser(_, _) => case GetUser(_) => case PutToken(_, _) => case GetToken(_) =>
    }
  }

  /** One command on the flat store does what the typed operation says, and its reply decodes to the
      typed answer. */
  lemma CommandSimulates(db: Database, s: Store, now: nat, op: Op)
    requires Refines(db, s)
    ensures Refines(Execute(db, now, CommandFor(op)), Perform(s, now, op))
    ensures Decoded(op, ReplyTo(db, now, CommandFor(op))) == Some(Answer(s, now, op))
  {
    var db', s' := Execute(db, now, CommandFor(op)), Perform(s, now, op);
    KeyOfCommand(op);
    match KeyOf(op) {
      case QueueKey => OwnKeyOfQueue(db, s, now, op);
      case HistoryKey(u) => OwnKeyOfHistory(db, s, now, op, u);
      case _ => OwnKeyOfText(db, s, now, op);
    }
    forall k: Key ensures Stored(db', k) == Encoded(s', k) {
      if k != KeyOf(op) {
        if KeyText(k) == KeyText(KeyOf(op)) { KeysAreDistinct(k, KeyOf(op)); }
        FlatFrame(db, now, CommandFor(op), KeyText(k));
        TypedFrame(s, now, op, k);
        assert Stored(db, k) == Encoded(s, k);
      }
    }
  }

  function RunFlat(db: Database, now: nat, events: seq<Event>): (Database, nat) {
    if events == [] then (db, now)
    else
      var (db', now') := RunFlat(db, now, events[..|events| - 1]);
      match events[|events| - 1]
      case Do(op) => (Execute(db', now', CommandFor(op)), now')
      case Wait(seconds) => (db', now' + seconds)
  }

  /** Over every run, of any clients in any order, the flat store stays a faithful image of the typed one. */
  lemma {:induction false} RunSimulates(db: Database, w: World, events: seq<Event>)
    requires Refines(db, w.store)
    ensures Refines(RunFlat(db, w.now, events).0, Replay(w, events).store)
    ensures RunFlat(db, w.now, events).1 == Replay(w, events).now
  {
    if events != [] {
      var front := events[..|events| - 1];
      RunSimulates(db, w, front);
      match events[|events| - 1] {
        case Do(op) => CommandSimulates(RunFlat(db, w.now, front).0, Replay(w, front).store, Replay(w, front).now, op);
        case Wait(_) =>
      }
    }
  }
}

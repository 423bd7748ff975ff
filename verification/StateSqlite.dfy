/** The SQLite-backed state adapter (src/state-sqlite.ts): thread locks with expiry, and a bounded
    queue built on an indexed list.  Tables are values; each SQL statement is a function on them.
    The clock and the random tokens are parameters. */
module StateSqlite {
  import opened Wrappers

  // ------------------------------------------------------------ lock table

  datatype LockRow = LockRow(token: string, expiresAt: int)

  /** thread_id is the unique key. */
  type LockTable = map<string, LockRow>

  function DeleteExpiredLock(t: LockTable, threadId: string, now: int): LockTable {
    if threadId in t && t[threadId].expiresAt < now then t - {threadId} else t
  }

  function InsertOrIgnoreLock(t: LockTable, threadId: string, row: LockRow): LockTable {
    if threadId in t then t else t[threadId := row]
  }

  function DeleteLockByToken(t: LockTable, threadId: string, token: string): LockTable {
    if threadId in t && t[threadId].token == token then t - {threadId} else t
  }

  function UpdateExpiry(t: LockTable, threadId: string, token: string, expiresAt: int): LockTable {
    if threadId in t && t[threadId].token == token then t[threadId := LockRow(token, expiresAt)] else t
  }

  function DeleteExpiredLocks(t: LockTable, now: int): LockTable {
    map k | k in t && t[k].expiresAt >= now :: t[k]
  }

  // ------------------------------------------------------------ list table

  datatype ListRow = ListRow(key: string, idx: int, value: string, expiresAt: Option<int>)

  /** Rows in insertion order. */
  type ListTable = seq<ListRow>

  datatype Condition = UpTo(key: string, cutoff: int) | At(key: string, idx: int) | ExpiredAt(now: int)

  predicate Matches(r: ListRow, c: Condition) {
    match c
    case UpTo(key, cutoff) => r.key == key && r.idx <= cutoff
    case At(key, idx) => r.key == key && r.idx == idx
    case ExpiredAt(now) => r.expiresAt != None && r.expiresAt.value < now
  }

  function DeleteWhere(t: ListTable, c: Condition): ListTable {
    if t == [] then []
    else if Matches(t[0], c) then DeleteWhere(t[1..], c)
    else [t[0]] + DeleteWhere(t[1..], c)
  }

  function MaxIdx(t: ListTable, key: string): Option<int> {
    if t == [] then None else
    match MaxIdx(t[1..], key)
    case None => if t[0].key == key then Some(t[0].idx) else None
    case Some(m) => Some(if t[0].key == key && t[0].idx > m then t[0].idx else m)
  }

  function Count(t: ListTable, key: string): nat {
    if t == [] then 0 else (if t[0].key == key then 1 else 0) + Count(t[1..], key)
  }

  /** ORDER BY idx ASC LIMIT 1 */
  function FirstByIdx(t: ListTable, key: string): Option<ListRow> {
    if t == [] then None else
    match FirstByIdx(t[1..], key)
    case None => if t[0].key == key then Some(t[0]) else None
    case Some(m) => Some(if t[0].key == key && t[0].idx <= m.idx then t[0] else m)
  }

  function QueueKey(threadId: string): string {
    "queue:" + threadId
  }

  /** The handle a caller holds; extending updates it. */
  class Lock {
    const threadId: string
    const token: string
    var expiresAt: int

    constructor (threadId: string, token: string, expiresAt: int)
      ensures this.threadId == threadId && this.token == token && this.expiresAt == expiresAt
    {
      this.threadId, this.token, this.expiresAt := threadId, token, expiresAt;
    }
  }

  // ------------------------------------------------------------- queue facts

  function Appended(t: ListTable, key: string, value: string, maxLength: int, expiresAt: Option<int>): ListTable {
    var m := MaxIdx(t, key);
    var nextIdx := (if m == None then -1 else m.value) + 1;
    var t1 := t + [ListRow(key, nextIdx, value, expiresAt)];
    if maxLength != 0 && nextIdx - maxLength >= 0 then DeleteWhere(t1, UpTo(key, nextIdx - maxLength)) else t1
  }

  function KeyRows(t: ListTable, key: string): ListTable {
    if t == [] then []
    else if t[0].key == key then [t[0]] + KeyRows(t[1..], key)
    else KeyRows(t[1..], key)
  }

  function Values(t: ListTable): (vs: seq<string>)
    ensures |vs| == |t|
  {
    seq(|t|, i requires 0 <= i < |t| => t[i].value)
  }

  /** The queue behind a key, oldest first. */
  function Contents(t: ListTable, key: string): seq<string> {
    Values(KeyRows(t, key))
  }

  /** The queue a list of values becomes under a size: its newest maxSize values; a size of 0
      does not bound it and a negative one empties it. */
  function Bounded(q: seq<string>, maxSize: int): seq<string> {
    if maxSize == 0 || |q| <= maxSize then q else if maxSize < 0 then [] else q[|q| - maxSize..]
  }

  /** Indices form one interval of naturals and nothing expires. */
  ghost predicate Interval(rows: ListTable, key: string) {
    && (forall i :: 0 <= i < |rows| ==>
         rows[i].key == key && rows[i].expiresAt == None && rows[i].idx == rows[0].idx + i)
    && (rows != [] ==> rows[0].idx >= 0)
  }

  ghost predicate AllQueuesOk(t: ListTable) {
    forall threadId: string :: Interval(KeyRows(t, QueueKey(threadId)), QueueKey(threadId))
  }

  lemma {:induction false} SurvivorsAre(t: ListTable, c: Condition)
    ensures forall r :: r in DeleteWhere(t, c) <==> r in t && !Matches(r, c)
  {
    if t != [] {
      SurvivorsAre(t[1..], c);
    }
  }

  lemma {:induction false} CountIsLength(t: ListTable, key: string)
    ensures Count(t, key) == |Contents(t, key)|
  {
    if t != [] {
      CountIsLength(t[1..], key);
    }
  }

  lemma {:induction false} KeyRowsConcat(a: ListTable, b: ListTable, key: string)
    ensures KeyRows(a + b, key) == KeyRows(a, key) + KeyRows(b, key)
    decreases |a|
  {
    if a == [] {
      assert a + b == b;
    } else {
      assert (a + b)[1..] == a[1..] + b;
      KeyRowsConcat(a[1..], b, key);
    }
  }

  lemma OneRow(rows: ListTable, key: string)
    requires |rows| <= 1
    ensures KeyRows(rows, key) == if rows != [] && rows[0].key == key then rows else []
  {
    if rows != [] {
      assert KeyRows(rows[1..], key) == [];
    }
  }

  lemma {:induction false} DeleteKeyRows(t: ListTable, c: Condition, key: string)
    ensures KeyRows(DeleteWhere(t, c), key) == DeleteWhere(KeyRows(t, key), c)
    decreases |t|
  {
    if t != [] {
      DeleteKeyRows(t[1..], c, key);
      var rest := DeleteWhere(t[1..], c);
      assert ([t[0]] + rest)[1..] == rest;
      assert t[0].key == key ==> KeyRows(t, key)[1..] == KeyRows(t[1..], key);
    }
  }

  /** Conditions on another key, or on expiry of rows that do not expire, delete nothing. */
  lemma {:induction false} DeleteNothing(rows: ListTable, c: Condition)
    requires forall i :: 0 <= i < |rows| ==> !Matches(rows[i], c)
    ensures DeleteWhere(rows, c) == rows
  {
    if rows != [] {
      DeleteNothing(rows[1..], c);
    }
  }

  lemma {:induction false} KeyRowsHaveKey(t: ListTable, key: string)
    ensures forall i :: 0 <= i < |KeyRows(t, key)| ==> KeyRows(t, key)[i].key == key
  {
    if t != [] {
      KeyRowsHaveKey(t[1..], key);
    }
  }

  lemma OtherKeyKept(t: ListTable, c: Condition, key: string)
    requires match c case UpTo(k, _) => k != key case At(k, _) => k != key case ExpiredAt(_) => false
    ensures KeyRows(DeleteWhere(t, c), key) == KeyRows(t, key)
  {
    DeleteKeyRows(t, c, key);
    KeyRowsHaveKey(t, key);
    DeleteNothing(KeyRows(t, key), c);
  }

  lemma OthersKept(t: ListTable, key: string, value: string, maxLength: int, expiresAt: Option<int>, t': ListTable)
    requires t' == Appended(t, key, value, maxLength, expiresAt)
    ensures forall k :: k != key ==> KeyRows(t', k) == KeyRows(t, k)
  {
    var m := MaxIdx(t, key);
    var row := ListRow(key, (if m == None then -1 else m.value) + 1, value, expiresAt);
    forall k | k != key ensures KeyRows(t', k) == KeyRows(t, k) {
      KeyRowsConcat(t, [row], k);
      OneRow([row], k);
      OtherKeyKept(t + [row], UpTo(key, row.idx - maxLength), k);
    }
  }

  lemma {:induction false} MaxOfInterval(t: ListTable, key: string)
    requires Interval(KeyRows(t, key), key)
    ensures var rows := KeyRows(t, key);
      MaxIdx(t, key) == if rows == [] then None else Some(rows[|rows| - 1].idx)
    decreases |t|
  {
    if t != [] {
      var rows, rest := KeyRows(t, key), KeyRows(t[1..], key);
      assert t[0].key == key ==> rest == rows[1..];
      MaxOfInterval(t[1..], key);
    }
  }

  lemma {:induction false} DropFromInterval(rows: ListTable, key: string, cutoff: int)
    requires Interval(rows, key)
    ensures var k := if rows == [] || cutoff < rows[0].idx then 0 else cutoff - rows[0].idx + 1;
      DeleteWhere(rows, UpTo(key, cutoff)) == if k <= |rows| then rows[k..] else []
  {
    if rows != [] {
      if cutoff < rows[0].idx {
        DeleteNothing(rows, UpTo(key, cutoff));
      } else {
        DropFromInterval(rows[1..], key, cutoff);
      }
    }
  }

  lemma BoundRefines(t: ListTable, rows: ListTable, key: string, last: int, maxSize: int)
    requires rows == KeyRows(t, key) && Interval(rows, key) && rows != [] && rows[|rows| - 1].idx == last
    ensures
      var t' := if maxSize != 0 && last - maxSize >= 0 then DeleteWhere(t, UpTo(key, last - maxSize)) else t;
      && Interval(KeyRows(t', key), key)
      && Contents(t', key) == Bounded(Values(rows), maxSize)
  {
    var cutoff := last - maxSize;
    DeleteKeyRows(t, UpTo(key, cutoff), key);
    DropFromInterval(rows, key, cutoff);
    assert last == rows[0].idx + |rows| - 1;
    assert forall k :: 0 <= k <= |rows| ==> Values(rows[k..]) == Values(rows)[k..];
  }

  /** One append keeps the interval and is the bounded append on the contents. */
  lemma AppendRefines(t: ListTable, key: string, value: string, maxSize: int)
    requires Interval(KeyRows(t, key), key)
    ensures Interval(KeyRows(Appended(t, key, value, maxSize, None), key), key)
    ensures Contents(Appended(t, key, value, maxSize, None), key) == Bounded(Contents(t, key) + [value], maxSize)
  {
    var rows := KeyRows(t, key);
    MaxOfInterval(t, key);
    var row := ListRow(key, if rows == [] then 0 else rows[|rows| - 1].idx + 1, value, None);
    KeyRowsConcat(t, [row], key);
    OneRow([row], key);
    var rows' := rows + [row];
    assert KeyRows(t + [row], key) == rows';
    assert Values(rows') == Values(rows) + [value];
    BoundRefines(t + [row], rows', key, row.idx, maxSize);
  }

  lemma AppendMeetsBound(t: ListTable, key: string, value: string, maxSize: int)
    requires AllQueuesOk(t) && exists threadId :: key == QueueKey(threadId)
    ensures AllQueuesOk(Appended(t, key, value, maxSize, None))
    ensures Contents(Appended(t, key, value, maxSize, None), key) == Bounded(Contents(t, key) + [value], maxSize)
  {
    var threadId :| key == QueueKey(threadId);
    assert Interval(KeyRows(t, QueueKey(threadId)), QueueKey(threadId));
    AppendRefines(t, key, value, maxSize);
    OthersKept(t, key, value, maxSize, None, Appended(t, key, value, maxSize, None));
  }

  lemma {:induction false} FirstOfInterval(t: ListTable, key: string)
    requires Interval(KeyRows(t, key), key)
    ensures var rows := KeyRows(t, key);
      FirstByIdx(t, key) == if rows == [] then None else Some(rows[0])
    decreases |t|
  {
    if t != [] {
      var rows, rest := KeyRows(t, key), KeyRows(t[1..], key);
      assert t[0].key == key ==> rest == rows[1..];
      FirstOfInterval(t[1..], key);
    }
  }

  lemma FirstIsHead(t: ListTable, key: string)
    requires AllQueuesOk(t) && exists threadId :: key == QueueKey(threadId)
    ensures var q := Contents(t, key);
      if q == [] then FirstByIdx(t, key) == None
      else FirstByIdx(t, key) == Some(KeyRows(t, key)[0]) && KeyRows(t, key)[0].value == q[0]
  {
    var threadId :| key == QueueKey(threadId);
    assert Interval(KeyRows(t, QueueKey(threadId)), QueueKey(threadId));
    FirstOfInterval(t, key);
  }

  lemma RemoveHead(t: ListTable, key: string)
    requires AllQueuesOk(t) && exists threadId :: key == QueueKey(threadId)
    requires KeyRows(t, key) != []
    ensures var t' := DeleteWhere(t, At(key, KeyRows(t, key)[0].idx));
      && AllQueuesOk(t')
      && Contents(t', key) == Contents(t, key)[1..]
      && forall k :: k != key ==> KeyRows(t', k) == KeyRows(t, k)
  {
    var threadId :| key == QueueKey(threadId);
    var rows := KeyRows(t, key);
    assert Interval(KeyRows(t, QueueKey(threadId)), QueueKey(threadId));
    var c := At(key, rows[0].idx);
    DeleteKeyRows(t, c, key);
    DeleteNothing(rows[1..], c);
    assert KeyRows(DeleteWhere(t, c), key) == rows[1..];
    assert Values(rows[1..]) == Values(rows)[1..];
    forall k | k != key ensures KeyRows(DeleteWhere(t, c), k) == KeyRows(t, k) {
      OtherKeyKept(t, c, k);
    }
  }

  lemma CleanupKeepsQueue(t: ListTable, th: string, now: int)
    requires AllQueuesOk(t)
    ensures KeyRows(DeleteWhere(t, ExpiredAt(now)), QueueKey(th)) == KeyRows(t, QueueKey(th))
  {
    assert Interval(KeyRows(t, QueueKey(th)), QueueKey(th));
    DeleteKeyRows(t, ExpiredAt(now), QueueKey(th));
    DeleteNothing(KeyRows(t, QueueKey(th)), ExpiredAt(now));
  }

  lemma {:induction false} MaxIdxIs(t: ListTable, key: string)
    ensures MaxIdx(t, key) == None <==> forall r :: r in t ==> r.key != key
    ensures MaxIdx(t, key) != None ==>
      && (forall r :: r in t && r.key == key ==> r.idx <= MaxIdx(t, key).value)
      && (exists r :: r in t && r.key == key && r.idx == MaxIdx(t, key).value)
  {
    if t != [] {
      MaxIdxIs(t[1..], key);
      assert forall r :: r in t <==> r == t[0] || r in t[1..];
    }
  }

  /** The rows after an append: the new one comes one behind the highest index of its list, and a trim spares
      the last maxLength. */
  ghost predicate AppendedTo(
      t: ListTable, t': ListTable, key: string, value: string, maxLength: int, expiresAt: Option<int>)
  {
    exists idx: int ::
      && (if forall r :: r in t ==> r.key != key then idx == 0 else
           && (forall r :: r in t && r.key == key ==> r.idx < idx)
           && (exists r :: r in t && r.key == key && r.idx == idx - 1))
      && forall r :: r in t' <==>
           && (r in t || r == ListRow(key, idx, value, expiresAt))
           && !(r.key == key && maxLength != 0 && 0 <= idx - maxLength && r.idx <= idx - maxLength)
  }

  lemma AppendedRows(t: ListTable, key: string, value: string, maxLength: int, expiresAt: Option<int>)
    ensures AppendedTo(t, Appended(t, key, value, maxLength, expiresAt), key, value, maxLength, expiresAt)
  {
    hide MaxIdx, DeleteWhere;
    var m := MaxIdx(t, key);
    MaxIdxIs(t, key);
    var idx := (if m == None then -1 else m.value) + 1;
    SurvivorsAre(t + [ListRow(key, idx, value, expiresAt)], UpTo(key, idx - maxLength));
  }

  // ------------------------------------------------------ queues, whole runs

  /** Operations on the list table: OpEnqueue is the append of enqueue, OpDepth its count or a call of
      queueDepth.  Other lists share the table under keys that are not queue keys. */
  datatype QueueOp =
    | OpEnqueue(threadId: string, entry: string, maxSize: int)
    | OpDequeue(threadId: string)
    | OpDepth(threadId: string)
    | OpAppend(key: string, value: string, maxLength: int, expiresAt: Option<int>)
    | OpCleanup(now: int)

  predicate Allowed(op: QueueOp) {
    op.OpAppend? ==> !("queue:" <= op.key)
  }

  datatype QueueResult = NoResult | Depth(n: nat) | Entry(e: Option<string>)

  function TableStep(t: ListTable, op: QueueOp): (ListTable, QueueResult) {
    match op
    case OpEnqueue(th, e, m) =>
      (Appended(t, QueueKey(th), e, m, None), NoResult)
    case OpDequeue(th) =>
      (match FirstByIdx(t, QueueKey(th))
       case None => (t, Entry(None))
       case Some(r) => (DeleteWhere(t, At(QueueKey(th), r.idx)), Entry(Some(r.value))))
    case OpDepth(th) => (t, Depth(Count(t, QueueKey(th))))
    case OpAppend(k, v, m, x) => (Appended(t, k, v, m, x), NoResult)
    case OpCleanup(now) => (DeleteWhere(t, ExpiredAt(now)), NoResult)
  }

  function TableRun(t: ListTable, ops: seq<QueueOp>): (ListTable, seq<QueueResult>)
    decreases |ops|
  {
    if ops == [] then (t, []) else
    var (t1, r) := TableStep(t, ops[0]);
    var (t2, rs) := TableRun(t1, ops[1..]);
    (t2, [r] + rs)
  }

  type Queues = map<string, seq<string>>

  function QueueOf(qs: Queues, threadId: string): seq<string> {
    if threadId in qs then qs[threadId] else []
  }

  /** Drop-oldest FIFO queues, one per thread; nothing else touches them. */
  function FifoStep(qs: Queues, op: QueueOp): (Queues, QueueResult) {
    match op
    case OpEnqueue(th, e, m) =>
      var q := Bounded(QueueOf(qs, th) + [e], m);
      (qs[th := q], NoResult)
    case OpDequeue(th) =>
      var q := QueueOf(qs, th);
      if q == [] then (qs, Entry(None)) else (qs[th := q[1..]], Entry(Some(q[0])))
    case OpDepth(th) => (qs, Depth(|QueueOf(qs, th)|))
    case OpAppend(_, _, _, _) => (qs, NoResult)
    case OpCleanup(_) => (qs, NoResult)
  }

  function FifoRun(qs: Queues, ops: seq<QueueOp>): (Queues, seq<QueueResult>)
    decreases |ops|
  {
    if ops == [] then (qs, []) else
    var (q1, r) := FifoStep(qs, ops[0]);
    var (q2, rs) := FifoRun(q1, ops[1..]);
    (q2, [r] + rs)
  }

  ghost predicate Represents(t: ListTable, qs: Queues) {
    AllQueuesOk(t) && forall threadId: string :: Contents(t, QueueKey(threadId)) == QueueOf(qs, threadId)
  }

  lemma QueueKeyInjective(a: string, b: string)
    requires QueueKey(a) == QueueKey(b)
    ensures a == b
  {
    assert QueueKey(a)[6..] == a && QueueKey(b)[6..] == b;
  }

  lemma QueueKeysDiffer(th: string)
    ensures forall other: string :: other != th ==> QueueKey(other) != QueueKey(th)
  {
    forall other: string | other != th ensures QueueKey(other) != QueueKey(th) {
      if QueueKey(other) == QueueKey(th) { QueueKeyInjective(other, th); }
    }
  }

  lemma ContentsEmpty(t: ListTable, key: string)
    ensures KeyRows(t, key) == [] <==> Contents(t, key) == []
  {
    assert |Contents(t, key)| == |KeyRows(t, key)|;
  }

  lemma NotAQueueKey(k: string)
    requires !("queue:" <= k)
    ensures forall th: string :: QueueKey(th) != k
  {
    forall th: string ensures QueueKey(th) != k {
      assert "queue:" <= QueueKey(th);
    }
  }

  lemma StepRefines(t: ListTable, qs: Queues, op: QueueOp)
    requires Represents(t, qs) && Allowed(op)
    ensures TableStep(t, op).1 == FifoStep(qs, op).1
    ensures Represents(TableStep(t, op).0, FifoStep(qs, op).0)
  {
    hide Appended, DeleteWhere, KeyRows, Values, FirstByIdx, Count, Interval, QueueKey;
    var t', qs' := TableStep(t, op).0, FifoStep(qs, op).0;
    match op {
      case OpEnqueue(th, e, m) =>
        QueueKeysDiffer(th);
        AppendMeetsBound(t, QueueKey(th), e, m);
        OthersKept(t, QueueKey(th), e, m, None, t');
      case OpDequeue(th) =>
        QueueKeysDiffer(th);
        FirstIsHead(t, QueueKey(th));
        if Contents(t, QueueKey(th)) != [] {
          ContentsEmpty(t, QueueKey(th));
          RemoveHead(t, QueueKey(th));
        }
      case OpDepth(th) =>
        CountIsLength(t, QueueKey(th));
      case OpAppend(k, v, m, x) =>
        NotAQueueKey(k);
        OthersKept(t, k, v, m, x, t');
      case OpCleanup(now) =>
        forall th: string ensures KeyRows(t', QueueKey(th)) == KeyRows(t, QueueKey(th)) {
          CleanupKeepsQueue(t, th, now);
        }
    }
  }

  /** Over every sequence of operations, an enqueue's append and its count in any distance, the table
      answers exactly as bounded drop-oldest FIFO queues would, through emptying, restarting indices,
      cleanup and unrelated lists. */
  lemma {:induction false} QueueRefinement(t: ListTable, qs: Queues, ops: seq<QueueOp>)
    requires Represents(t, qs) && forall op :: op in ops ==> Allowed(op)
    ensures TableRun(t, ops).1 == FifoRun(qs, ops).1
    ensures Represents(TableRun(t, ops).0, FifoRun(qs, ops).0)
    decreases |ops|
  {
    hide TableStep, FifoStep, Represents, Allowed;
    if ops != [] {
      assert ops[0] in ops;
      StepRefines(t, qs, ops[0]);
      QueueRefinement(TableStep(t, ops[0]).0, FifoStep(qs, ops[0]).0, ops[1..]);
    }
  }

  lemma {:induction false} NoRows(t: ListTable, key: string)
    requires forall r :: r in t ==> r.key != key
    ensures KeyRows(t, key) == []
  {
    if t != [] {
      NoRows(t[1..], key);
    }
  }

  /** Every well-kept table represents some queues. */
  lemma SomeQueues(t: ListTable) returns (qs: Queues)
    requires AllQueuesOk(t)
    ensures Represents(t, qs)
  {
    var threads := set r | r in t && "queue:" <= r.key :: r.key[6..];
    qs := map th | th in threads :: Contents(t, QueueKey(th));
    forall th: string ensures Contents(t, QueueKey(th)) == QueueOf(qs, th) {
      if th !in threads {
        assert "queue:" <= QueueKey(th) && QueueKey(th)[6..] == th;
        assert forall r :: r in t ==> r.key != QueueKey(th);
        NoRows(t, QueueKey(th));
      }
    }
  }

  lemma RunKeepsQueues(t: ListTable, ops: seq<QueueOp>)
    requires AllQueuesOk(t) && forall op :: op in ops ==> Allowed(op)
    ensures AllQueuesOk(TableRun(t, ops).0)
  {
    hide TableRun;
    var qs := SomeQueues(t);
    QueueRefinement(t, qs, ops);
  }

  // ---------------------------------------------------------------- adapter

  class SqliteStateAdapter {
    var locks: LockTable
    var lists: ListTable

    constructor ()
      ensures locks == map[] && lists == []
    {
      locks, lists := map[], [];
    }

    method AcquireLock(threadId: string, ttlMs: int, now: int, token: string) returns (lock: Lock?)
      modifies this`locks
      ensures locks ==
        InsertOrIgnoreLock(DeleteExpiredLock(old(locks), threadId, now), threadId, LockRow(token, now + ttlMs))
      ensures lock == null <==> threadId in old(locks) && old(locks)[threadId].expiresAt >= now
      ensures lock != null ==>
        fresh(lock) && lock.threadId == threadId && lock.token == token && lock.expiresAt == now + ttlMs
      ensures locks == if lock == null then old(locks) else old(locks)[threadId := LockRow(token, now + ttlMs)]
    {
      var expiresAt := now + ttlMs;
      locks := DeleteExpiredLock(locks, threadId, now);
      if threadId in locks {
        return null;
      }
      locks := locks[threadId := LockRow(token, expiresAt)];
      lock := new Lock(threadId, token, expiresAt);
    }

    method ReleaseLock(lock: Lock)
      modifies this`locks
      ensures locks == DeleteLockByToken(old(locks), lock.threadId, lock.token)
      ensures locks ==
        if lock.threadId in old(locks) && old(locks)[lock.threadId].token == lock.token
        then old(locks) - {lock.threadId} else old(locks)
    {
      if lock.threadId in locks && locks[lock.threadId].token == lock.token {
        locks := locks - {lock.threadId};
      }
    }

    method ExtendLock(lock: Lock, ttlMs: int, now: int) returns (extended: bool)
      modifies this`locks, lock
      ensures extended <==> lock.threadId in old(locks) && old(locks)[lock.threadId].token == lock.token
      ensures locks == UpdateExpiry(old(locks), lock.threadId, lock.token, now + ttlMs)
      ensures locks ==
        if extended then old(locks)[lock.threadId := LockRow(lock.token, now + ttlMs)] else old(locks)
      ensures lock.expiresAt == if extended then now + ttlMs else old(lock.expiresAt)
    {
      var newExpiry := now + ttlMs;
      extended := lock.threadId in locks && locks[lock.threadId].token == lock.token;
      if extended {
        locks := locks[lock.threadId := LockRow(lock.token, newExpiry)];
        lock.expiresAt := newExpiry;
      }
    }

    method ForceReleaseLock(threadId: string)
      modifies this`locks
      ensures locks == old(locks) - {threadId}
    {
      locks := locks - {threadId};
    }

    method Cleanup(now: int)
      modifies this`locks, this`lists
      ensures locks == DeleteExpiredLocks(old(locks), now)
      ensures lists == DeleteWhere(old(lists), ExpiredAt(now))
      ensures forall th :: th in locks <==> th in old(locks) && old(locks)[th].expiresAt >= now
      ensures forall th :: th in locks ==> locks[th] == old(locks)[th]
      ensures forall r :: r in lists <==> r in old(lists) && (r.expiresAt == None || r.expiresAt.value >= now)
      ensures old(AllQueuesOk(lists)) ==> AllQueuesOk(lists)
      ensures old(AllQueuesOk(lists)) ==>
        forall th: string :: KeyRows(lists, QueueKey(th)) == old(KeyRows(lists, QueueKey(th)))
    {
      SurvivorsAre(lists, ExpiredAt(now));
      if AllQueuesOk(lists) {
        forall th: string
          ensures KeyRows(DeleteWhere(lists, ExpiredAt(now)), QueueKey(th)) == KeyRows(lists, QueueKey(th))
        {
          CleanupKeepsQueue(lists, th, now);
        }
      }
      locks := DeleteExpiredLocks(locks, now);
      lists := DeleteWhere(lists, ExpiredAt(now));
    }

    /** maxLength 0 stands for no bound, as in the source's truth test. */
    method AppendToList(key: string, value: string, maxLength: int, expiresAt: Option<int>)
      modifies this`lists
      ensures lists == Appended(old(lists), key, value, maxLength, expiresAt)
      ensures AppendedTo(old(lists), lists, key, value, maxLength, expiresAt)
    {
      AppendedRows(lists, key, value, maxLength, expiresAt);
      hide AppendedTo;
      var maxRow := MaxIdx(lists, key);
      var nextIdx := (if maxRow == None then -1 else maxRow.value) + 1;
      lists := lists + [ListRow(key, nextIdx, value, expiresAt)];
      if maxLength != 0 {
        var cutoff := nextIdx - maxLength;
        if cutoff >= 0 {
          lists := DeleteWhere(lists, UpTo(key, cutoff));
        }
      }
    }

    method QueueDepth(threadId: string) returns (depth: nat)
      ensures depth == |Contents(lists, QueueKey(threadId))|
    {
      depth := Count(lists, QueueKey(threadId));
      CountIsLength(lists, QueueKey(threadId));
    }

    /** enqueue appends, and counts in a later section: between holds what other callers do to the table
        in the meantime.  The depth returned is the one at the count. */
    method Enqueue(threadId: string, entry: string, maxSize: int, between: seq<QueueOp>) returns (depth: nat)
      requires AllQueuesOk(lists) && forall op :: op in between ==> Allowed(op)
      modifies this`lists
      ensures AllQueuesOk(lists)
      ensures lists == TableRun(Appended(old(lists), QueueKey(threadId), entry, maxSize, None), between).0
      ensures depth == |Contents(lists, QueueKey(threadId))|
      ensures between == [] ==>
        var q := old(Contents(lists, QueueKey(threadId))) + [entry];
        Contents(lists, QueueKey(threadId)) ==
          if maxSize == 0 || |q| <= maxSize then q else if maxSize < 0 then [] else q[|q| - maxSize..]
      ensures between == [] ==> forall k :: k != QueueKey(threadId) ==> KeyRows(lists, k) == old(KeyRows(lists, k))
    {
      var key := QueueKey(threadId);
      AppendMeetsBound(lists, key, entry, maxSize);
      OthersKept(lists, key, entry, maxSize, None, Appended(lists, key, entry, maxSize, None));
      AppendToList(key, entry, maxSize, None);
      RunKeepsQueues(lists, between);
      lists := TableRun(lists, between).0;
      depth := QueueDepth(threadId);
    }

    method Dequeue(threadId: string) returns (entry: Option<string>)
      requires AllQueuesOk(lists)
      modifies this`lists
      ensures AllQueuesOk(lists)
      ensures var q := old(Contents(lists, QueueKey(threadId)));
        if q == [] then entry == None && lists == old(lists)
        else entry == Some(q[0]) && Contents(lists, QueueKey(threadId)) == q[1..]
      ensures forall k :: k != QueueKey(threadId) ==> KeyRows(lists, k) == old(KeyRows(lists, k))
    {
      var key := QueueKey(threadId);
      FirstIsHead(lists, key);
      var row := FirstByIdx(lists, key);
      if row == None {
        return None;
      }
      RemoveHead(lists, key);
      lists := DeleteWhere(lists, At(key, row.value.idx));
      entry := Some(row.value.value);
    }
  }

  // ------------------------------------------------------- locks, whole runs

  /** A handle given out: finished once released or forced away. */
  datatype Handle = Handle(threadId: string, expiresAt: int, finished: bool)

  datatype LockState = LockState(table: LockTable, handles: map<string, Handle>, now: int)

  datatype LockOp =
    | Acquire(threadId: string, ttlMs: int, token: string)
    | Release(token: string)
    | Extend(token: string, ttlMs: int)
    | Force(threadId: string)
    | Sweep

  datatype LockEvent = LockEvent(at: int, op: LockOp)

  /** Time does not go back, tokens are new, and handles are used by those who hold them. */
  predicate Enabled(s: LockState, e: LockEvent) {
    && e.at >= s.now
    && match e.op
       case Acquire(_, _, token) => token !in s.handles
       case Release(token) => token in s.handles
       case Extend(token, _) => token in s.handles
       case Force(_) => true
       case Sweep => true
  }

  function LockStep(s: LockState, e: LockEvent): LockState
    requires Enabled(s, e)
  {
    var now := e.at;
    match e.op
    case Acquire(th, ttl, token) =>
      var swept := DeleteExpiredLock(s.table, th, now);
      LockState(
        InsertOrIgnoreLock(swept, th, LockRow(token, now + ttl)),
        if th in swept then s.handles else s.handles[token := Handle(th, now + ttl, false)],
        now)
    case Release(token) =>
      var h := s.handles[token];
      LockState(DeleteLockByToken(s.table, h.threadId, token), s.handles[token := h.(finished := true)], now)
    case Extend(token, ttl) =>
      var h := s.handles[token];
      var ok := h.threadId in s.table && s.table[h.threadId].token == token;
      LockState(
        UpdateExpiry(s.table, h.threadId, token, now + ttl),
        if ok then s.handles[token := h.(expiresAt := now + ttl)] else s.handles,
        now)
    case Force(th) =>
      LockState(
        s.table - {th},
        map k | k in s.handles :: if s.handles[k].threadId == th then s.handles[k].(finished := true) else s.handles[k],
        now)
    case Sweep => LockState(DeleteExpiredLocks(s.table, now), s.handles, now)
  }

  predicate LockRunOk(s: LockState, es: seq<LockEvent>)
    decreases |es|
  {
    es == [] || (Enabled(s, es[0]) && LockRunOk(LockStep(s, es[0]), es[1..]))
  }

  function LockRun(s: LockState, es: seq<LockEvent>): LockState
    requires LockRunOk(s, es)
    decreases |es|
  {
    if es == [] then s else LockRun(LockStep(s, es[0]), es[1..])
  }

  /** Unexpired, and neither released nor forced. */
  predicate Live(s: LockState, token: string) {
    token in s.handles && !s.handles[token].finished && s.handles[token].expiresAt >= s.now
  }

  ghost predicate LockInv(s: LockState) {
    && (forall k :: Live(s, k) ==>
         var h := s.handles[k];
         h.threadId in s.table && s.table[h.threadId] == LockRow(k, h.expiresAt))
    && (forall th :: th in s.table ==>
         var k := s.table[th].token;
         k in s.handles && s.handles[k] == Handle(th, s.table[th].expiresAt, false))
  }

  lemma AcquireKeepsInv(s: LockState, at: int, th: string, ttl: int, token: string)
    requires LockInv(s) && Enabled(s, LockEvent(at, Acquire(th, ttl, token)))
    ensures LockInv(LockStep(s, LockEvent(at, Acquire(th, ttl, token))))
  {
  }

  lemma ReleaseKeepsInv(s: LockState, at: int, token: string)
    requires LockInv(s) && Enabled(s, LockEvent(at, Release(token)))
    ensures LockInv(LockStep(s, LockEvent(at, Release(token))))
  {
  }

  lemma ExtendKeepsInv(s: LockState, at: int, token: string, ttl: int)
    requires LockInv(s) && Enabled(s, LockEvent(at, Extend(token, ttl)))
    ensures LockInv(LockStep(s, LockEvent(at, Extend(token, ttl))))
  {
  }

  lemma ForceKeepsInv(s: LockState, at: int, th: string)
    requires LockInv(s) && Enabled(s, LockEvent(at, Force(th)))
    ensures LockInv(LockStep(s, LockEvent(at, Force(th))))
  {
  }

  lemma SweepKeepsInv(s: LockState, at: int)
    requires LockInv(s) && Enabled(s, LockEvent(at, Sweep))
    ensures LockInv(LockStep(s, LockEvent(at, Sweep)))
  {
  }

  lemma LockStepKeepsInv(s: LockState, e: LockEvent)
    requires LockInv(s) && Enabled(s, e)
    ensures LockInv(LockStep(s, e))
  {
    hide LockInv, LockStep;
    match e.op {
      case Acquire(th, ttl, token) => AcquireKeepsInv(s, e.at, th, ttl, token);
      case Release(token) => ReleaseKeepsInv(s, e.at, token);
      case Extend(token, ttl) => ExtendKeepsInv(s, e.at, token, ttl);
      case Force(th) => ForceKeepsInv(s, e.at, th);
      case Sweep => SweepKeepsInv(s, e.at);
    }
  }

  lemma {:induction false} LockRunKeepsInv(s: LockState, es: seq<LockEvent>)
    requires LockInv(s) && LockRunOk(s, es)
    ensures LockInv(LockRun(s, es))
    decreases |es|
  {
    hide LockStep, LockInv, Enabled;
    if es != [] {
      LockStepKeepsInv(s, es[0]);
      LockRunKeepsInv(LockStep(s, es[0]), es[1..]);
    }
  }

  /** Mutual exclusion over all runs: two live handles for one thread are the same handle. */
  lemma MutualExclusion(es: seq<LockEvent>, start: int, a: string, b: string)
    requires LockRunOk(LockState(map[], map[], start), es)
    requires var s := LockRun(LockState(map[], map[], start), es);
      Live(s, a) && Live(s, b) && s.handles[a].threadId == s.handles[b].threadId
    ensures a == b
  {
    LockRunKeepsInv(LockState(map[], map[], start), es);
  }

  /** A lock is refused exactly while somebody holds it live. */
  lemma RefusedIffHeld(es: seq<LockEvent>, start: int, at: int, th: string)
    requires LockRunOk(LockState(map[], map[], start), es)
    ensures
      var s := LockRun(LockState(map[], map[], start), es);
      at >= s.now ==>
        (th in DeleteExpiredLock(s.table, th, at) <==>
         exists k :: Live(s.(now := at), k) && s.handles[k].threadId == th)
  {
    var s := LockRun(LockState(map[], map[], start), es);
    LockRunKeepsInv(LockState(map[], map[], start), es);
    if at >= s.now && th in DeleteExpiredLock(s.table, th, at) {
      assert Live(s.(now := at), s.table[th].token);
    }
    assert forall k :: at >= s.now && Live(s.(now := at), k) ==> Live(s, k);
  }

  /** Releasing or extending changes at most the caller's own row: with a stale token, nothing. */
  lemma StaleTokenIsHarmless(t: LockTable, th: string, token: string, expiresAt: int, other: string)
    requires other in t && (other != th || t[other].token != token)
    ensures other in DeleteLockByToken(t, th, token) && DeleteLockByToken(t, th, token)[other] == t[other]
    ensures other in UpdateExpiry(t, th, token, expiresAt) && UpdateExpiry(t, th, token, expiresAt)[other] == t[other]
  {
  }
}

/** A session's inbound tables (src/db/session-db.ts, src/db/schema.ts).  Each SQL statement is a
    function on table values; the class applies them to its fields. */
module SessionDb {
  import opened Wrappers

  datatype Status = Pending | Completed | Failed

  /** processAfter is in milliseconds, always a whole second when the host wrote it. */
  datatype MessageIn = MessageIn(
    id: string,
    seqNo: int,
    status: Status,
    processAfter: Option<int>,
    tries: nat,
    trigger: bool,
    content: string)

  /** Rows in commit order; id and seq are unique. */
  type Inbox = seq<MessageIn>

  // ------------------------------------------------------------- allocation

  /** COALESCE(MAX(seq), 0) */
  function MaxSeq(t: Inbox): int {
    if t == [] then 0
    else
      var m := MaxSeq(t[..|t| - 1]);
      if |t| == 1 || t[|t| - 1].seqNo > m then t[|t| - 1].seqNo else m
  }

  function NextEvenSeq(t: Inbox): int {
    var m := MaxSeq(t);
    if m < 2 then 2 else m + 2 - m % 2
  }

  lemma {:induction false} MaxSeqIsMax(t: Inbox)
    ensures forall i :: 0 <= i < |t| ==> t[i].seqNo <= MaxSeq(t)
    ensures t != [] ==> exists i :: 0 <= i < |t| && t[i].seqNo == MaxSeq(t)
  {
    if t != [] {
      var init := t[..|t| - 1];
      MaxSeqIsMax(init);
      if |t| == 1 || t[|t| - 1].seqNo > MaxSeq(init) {
        assert t[|t| - 1].seqNo == MaxSeq(t);
      } else {
        var i :| 0 <= i < |init| && init[i].seqNo == MaxSeq(init);
        assert t[i].seqNo == MaxSeq(t);
      }
    }
  }

  /** For every table: the least even number from 2 up above all seq values. */
  lemma NextEvenSeqIsLeast(t: Inbox, m: int)
    ensures NextEvenSeq(t) % 2 == 0 && NextEvenSeq(t) >= 2
    ensures forall i :: 0 <= i < |t| ==> t[i].seqNo < NextEvenSeq(t)
    ensures m % 2 == 0 && m >= 2 && (forall i :: 0 <= i < |t| ==> t[i].seqNo < m) ==> NextEvenSeq(t) <= m
  {
    MaxSeqIsMax(t);
  }

  /** seq is 2, 4, …, 2n in commit order. */
  ghost predicate Dense(t: Inbox) {
    forall i :: 0 <= i < |t| ==> t[i].seqNo == 2 * (i + 1)
  }

  lemma NextOfDense(t: Inbox)
    requires Dense(t)
    ensures NextEvenSeq(t) == 2 * (|t| + 1)
  {
    MaxSeqIsMax(t);
    if t != [] {
      assert t[|t| - 1].seqNo == 2 * |t|;
    }
  }

  // -------------------------------------------------------------- inserting

  predicate HasId(t: Inbox, id: string) {
    exists i :: 0 <= i < |t| && t[i].id == id
  }

  predicate HasSeq(t: Inbox, n: int) {
    exists i :: 0 <= i < |t| && t[i].seqNo == n
  }

  datatype Insert = Inserted(table: Inbox) | IdTaken | SeqTaken

  function TryInsert(t: Inbox, row: MessageIn): Insert {
    if HasId(t, row.id) then IdTaken
    else if HasSeq(t, row.seqNo) then SeqTaken
    else Inserted(t + [row])
  }

  datatype NewMessage = NewMessage(id: string, content: string, processAfter: Option<int>, trigger: bool)

  function RowOf(m: NewMessage, n: int): MessageIn {
    MessageIn(m.id, n, Pending, m.processAfter, 0, m.trigger, m.content)
  }

  const MAX_ATTEMPTS := 32

  /** Without interference one attempt decides: a fresh id gets the next even seq. */
  lemma AloneNeverCollides(t: Inbox, m: NewMessage)
    ensures TryInsert(t, RowOf(m, NextEvenSeq(t))) ==
      if HasId(t, m.id) then IdTaken else Inserted(t + [RowOf(m, NextEvenSeq(t))])
  {
    NextEvenSeqIsLeast(t, 2);
  }

  /** What other writers commit in one gap, under the seq values they are bound to get. */
  function Commit(t: Inbox, others: seq<NewMessage>): Inbox
    decreases |others|
  {
    if others == [] then t
    else Commit(t + [RowOf(others[0], 2 * (|t| + 1))], others[1..])
  }

  /** The commits of several gaps. */
  function CommitAll(t: Inbox, gaps: seq<seq<NewMessage>>): Inbox {
    if gaps == [] then t else Commit(CommitAll(t, gaps[..|gaps| - 1]), gaps[|gaps| - 1])
  }

  lemma {:induction false} CommitAppends(t: Inbox, others: seq<NewMessage>)
    requires Dense(t)
    ensures Dense(Commit(t, others)) && |Commit(t, others)| == |t| + |others| && t <= Commit(t, others)
    decreases |others|
  {
    if others != [] {
      CommitAppends(t + [RowOf(others[0], 2 * (|t| + 1))], others[1..]);
    }
  }

  /** One attempt with its gap: it succeeds only if nothing was committed in the gap. */
  lemma OneAttempt(t: Inbox, gap: seq<NewMessage>, m: NewMessage)
    requires Dense(t)
    ensures Dense(Commit(t, gap)) && t <= Commit(t, gap) && |Commit(t, gap)| == |t| + |gap|
    ensures
      match TryInsert(Commit(t, gap), RowOf(m, NextEvenSeq(t)))
      case Inserted(u) =>
        && gap == [] && Dense(u) && !HasId(u[..|u| - 1], m.id)
        && u == Commit(t, gap) + [MessageIn(m.id, 2 * |u|, Pending, m.processAfter, 0, m.trigger, m.content)]
      case IdTaken => HasId(Commit(t, gap), m.id)
      case SeqTaken => gap != []
  {
    hide NextEvenSeq, HasId;
    NextOfDense(t);
    CommitAppends(t, gap);
    var c, row := Commit(t, gap), RowOf(m, NextEvenSeq(t));
    assert gap != [] ==> c[|t|].seqNo == row.seqNo;
    assert (c + [row])[..|c|] == c;
  }

  lemma OneMoreGap(t: Inbox, gaps: seq<seq<NewMessage>>, n: nat)
    requires n < |gaps|
    ensures CommitAll(t, gaps[..n + 1]) == Commit(CommitAll(t, gaps[..n]), gaps[n])
  {
    hide Commit;
    assert gaps[..n + 1][..n] == gaps[..n];
  }

  lemma NoGapYet(t: Inbox, gaps: seq<seq<NewMessage>>)
    ensures CommitAll(t, gaps[..0]) == t
  {
  }

  // --------------------------------------------------------------- updating

  /** The clock in whole seconds, which is all datetime('now') keeps. */
  function Seconds(ms: int): int {
    ms / 1000
  }

  /** The three updates the host makes to a row. */
  datatype Edit = Complete | Fail | Bump(backoffSec: int, now: int)

  function Edited(r: MessageIn, e: Edit): MessageIn {
    match e
    case Complete => if r.status != Completed then r.(status := Completed) else r
    case Fail => r.(status := Failed)
    case Bump(sec, now) => r.(tries := r.tries + 1, processAfter := Some((Seconds(now) + sec) * 1000))
  }

  /** UPDATE … WHERE id = ? */
  function UpdateById(t: Inbox, id: string, e: Edit): (u: Inbox)
    ensures |u| == |t|
    ensures forall i :: 0 <= i < |t| ==> u[i] == if t[i].id == id then Edited(t[i], e) else t[i]
  {
    seq(|t|, i requires 0 <= i < |t| => if t[i].id == id then Edited(t[i], e) else t[i])
  }

  /** The first pending row with this id. */
  function PendingRow(t: Inbox, id: string): Option<MessageIn> {
    if t == [] then None
    else if t[0].id == id && t[0].status == Pending then Some(t[0])
    else PendingRow(t[1..], id)
  }

  /** Every id in the list becomes completed, a failed one included. */
  function Synced(t: Inbox, completed: seq<string>): Inbox
    decreases |completed|
  {
    if completed == [] then t
    else Synced(UpdateById(t, completed[0], Complete), completed[1..])
  }

  /** Pending, triggering, and not scheduled for later; compared in whole seconds. */
  function CountDue(t: Inbox, now: int): nat {
    if t == [] then 0 else
    var r := t[|t| - 1];
    CountDue(t[..|t| - 1], now) +
      if r.status == Pending && r.trigger && (r.processAfter == None || Seconds(r.processAfter.value) <= Seconds(now))
      then 1 else 0
  }

  /** The row is work whose time has come. */
  predicate IsDue(r: MessageIn, now: int) {
    r.status == Pending && r.trigger && (r.processAfter == None || r.processAfter.value / 1000 <= now / 1000)
  }

  lemma CountDueSnoc(t: Inbox, now: int)
    requires t != []
    ensures CountDue(t, now) == CountDue(t[..|t| - 1], now) + if IsDue(t[|t| - 1], now) then 1 else 0
  {
  }

  lemma SetGrows(before: set<nat>, after: set<nat>, x: nat, added: bool)
    requires x !in before && forall i :: i in after <==> i in before || (added && i == x)
    ensures |after| == |before| + if added then 1 else 0
  {
    if added {
      assert after == before + {x};
    } else {
      assert after == before;
    }
  }

  lemma CountDueEmpty(now: int)
    ensures CountDue([], now) == 0
  {
  }

  /** The number of due rows in the table. */
  lemma {:induction false} CountDueCounts(t: Inbox, now: int)
    ensures CountDue(t, now) == |set i: nat | i < |t| && IsDue(t[i], now)|
  {
    hide IsDue, CountDue;
    var due := set i: nat | i < |t| && IsDue(t[i], now);
    if t == [] {
      CountDueEmpty(now);
      assert due == {};
    } else {
      var init, last := t[..|t| - 1], |t| - 1;
      CountDueCounts(init, now);
      CountDueSnoc(t, now);
      var before := set i: nat | i < |init| && IsDue(init[i], now);
      SetGrows(before, due, last, IsDue(t[last], now));
    }
  }

  /** A message put off wakes nobody until its seconds have passed, and then it does. */
  lemma BumpedIsDueIff(r: MessageIn, backoffSec: int, bumpedAt: int, now: int)
    requires r.status == Pending && r.trigger
    ensures CountDue([Edited(r, Bump(backoffSec, bumpedAt))], now) ==
      if now / 1000 >= bumpedAt / 1000 + backoffSec then 1 else 0
  {
    var r' := Edited(r, Bump(backoffSec, bumpedAt));
    assert [r'][..0] == [];
    assert (bumpedAt / 1000 + backoffSec) * 1000 / 1000 == bumpedAt / 1000 + backoffSec;
  }

  predicate UniqueIds(t: Inbox) {
    forall i, j :: 0 <= i < j < |t| ==> t[i].id != t[j].id
  }

  lemma {:induction false} NoPendingRow(t: Inbox, id: string)
    requires forall i :: 0 <= i < |t| ==> t[i].id != id
    ensures PendingRow(t, id) == None
  {
    if t != [] {
      NoPendingRow(t[1..], id);
    }
  }

  lemma {:induction false} PendingRowIs(t: Inbox, i: nat)
    requires UniqueIds(t) && i < |t|
    ensures PendingRow(t, t[i].id) == if t[i].status == Pending then Some(t[i]) else None
    decreases |t|
  {
    if i > 0 {
      PendingRowIs(t[1..], i - 1);
    } else {
      NoPendingRow(t[1..], t[0].id);
    }
  }

  lemma {:induction false} SyncedRows(t: Inbox, completed: seq<string>)
    ensures |Synced(t, completed)| == |t|
    ensures forall i :: 0 <= i < |t| ==>
      Synced(t, completed)[i] == if t[i].id in completed then t[i].(status := Completed) else t[i]
    decreases |completed|
  {
    if completed != [] {
      SyncedRows(UpdateById(t, completed[0], Complete), completed[1..]);
      assert forall id :: id in completed <==> id == completed[0] || id in completed[1..];
    }
  }

  class InboundDb {
    var messagesIn: Inbox

    constructor ()
      ensures messagesIn == []
    {
      messagesIn := [];
    }

    /** The retry loop with its read and its write apart: others[k] is committed by other
        writers between the two on attempt k.  The loop gives up on a seq collision only when
        every one of its 32 gaps held a commit, and otherwise leaves seq dense. */
    method InsertMessage(m: NewMessage, others: seq<seq<NewMessage>>) returns (r: Insert, attempts: nat)
      requires Dense(messagesIn) && |others| == MAX_ATTEMPTS
      modifies this
      ensures Dense(messagesIn) && old(messagesIn) <= messagesIn
      ensures 1 <= attempts <= MAX_ATTEMPTS
      ensures forall k :: 0 <= k < attempts - 1 ==> others[k] != []
      ensures r.SeqTaken? ==> forall k :: 0 <= k < MAX_ATTEMPTS ==> others[k] != []
      ensures r.SeqTaken? ==> |messagesIn| >= |old(messagesIn)| + MAX_ATTEMPTS
      // Besides the other writers' rows there is exactly the one row of a successful insert.
      ensures messagesIn == CommitAll(old(messagesIn), others[..attempts]) +
        if r.Inserted?
        then [MessageIn(m.id, 2 * |messagesIn|, Pending, m.processAfter, 0, m.trigger, m.content)] else []
      ensures r.Inserted? ==> others[attempts - 1] == [] && !HasId(messagesIn[..|messagesIn| - 1], m.id)
      ensures r.IdTaken? ==> HasId(messagesIn, m.id)
    {
      attempts, r := 0, SeqTaken;
      NoGapYet(messagesIn, others);
      while attempts < MAX_ATTEMPTS
        invariant 0 <= attempts <= MAX_ATTEMPTS
        invariant Dense(messagesIn) && old(messagesIn) <= messagesIn
        invariant |messagesIn| >= |old(messagesIn)| + attempts
        invariant forall k :: 0 <= k < attempts ==> others[k] != []
        invariant r.SeqTaken?
        invariant messagesIn == CommitAll(old(messagesIn), others[..attempts])
      {
        hide Commit, CommitAll, RowOf, NextEvenSeq, TryInsert, HasId, Dense;
        var n := NextEvenSeq(messagesIn);
        OneAttempt(messagesIn, others[attempts], m);
        OneMoreGap(old(messagesIn), others, attempts);
        messagesIn := Commit(messagesIn, others[attempts]);
        attempts := attempts + 1;
        r := TryInsert(messagesIn, RowOf(m, n));
        match r {
          case Inserted(t) =>
            messagesIn := t;
            return;
          case IdTaken =>
            return;
          case SeqTaken =>
        }
      }
    }

    method RetryWithBackoff(id: string, backoffSec: int, now: int)
      modifies this
      ensures messagesIn == UpdateById(old(messagesIn), id, Bump(backoffSec, now))
      ensures |messagesIn| == |old(messagesIn)|
      ensures forall i :: 0 <= i < |messagesIn| ==>
        var r, r' := old(messagesIn)[i], messagesIn[i];
        r' == if r.id == id
              then r.(tries := r.tries + 1, processAfter := Some((now / 1000 + backoffSec) * 1000))
              else r
    {
      messagesIn := UpdateById(messagesIn, id, Bump(backoffSec, now));
    }

    method MarkMessageFailed(id: string)
      modifies this
      ensures messagesIn == UpdateById(old(messagesIn), id, Fail)
      ensures |messagesIn| == |old(messagesIn)|
      ensures forall i :: 0 <= i < |messagesIn| ==>
        var r, r' := old(messagesIn)[i], messagesIn[i];
        r' == if r.id == id then r.(status := Failed) else r
    {
      messagesIn := UpdateById(messagesIn, id, Fail);
    }

    method SyncProcessingAcks(completed: seq<string>)
      modifies this
      ensures messagesIn == Synced(old(messagesIn), completed)
      ensures |messagesIn| == |old(messagesIn)|
      ensures forall i :: 0 <= i < |messagesIn| ==>
        var r, r' := old(messagesIn)[i], messagesIn[i];
        r' == if r.id in completed then r.(status := Completed) else r
    {
      SyncedRows(messagesIn, completed);
      for n := 0 to |completed|
        invariant Synced(messagesIn, completed[n..]) == Synced(old(messagesIn), completed)
      {
        messagesIn := UpdateById(messagesIn, completed[n], Complete);
        assert completed[n..][1..] == completed[n + 1..];
      }
    }
  }
}

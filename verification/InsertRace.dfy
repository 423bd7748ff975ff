/** Any number of processes inside insertMessage at once (src/db/session-db.ts): reading MAX(seq)
    and inserting are separate steps, and every order of steps is a run. */
module InsertRace {
  import opened SessionDb

  /** One call: about to read, holding a seq it read, or over.  began is the number of rows when
      the call started. */
  datatype Call =
    | Reading(message: NewMessage, attempt: nat, began: nat)
    | Writing(message: NewMessage, attempt: nat, began: nat, seqNo: int)
    | Succeeded
    | FailedOnId
    | FailedOnSeq(began: nat)

  datatype Race = Race(table: Inbox, calls: map<nat, Call>)

  datatype Event = Begin(call: nat, message: NewMessage) | Read(call: nat) | Write(call: nat)

  predicate Enabled(s: Race, e: Event) {
    match e
    case Begin(c, _) => c !in s.calls
    case Read(c) => c in s.calls && s.calls[c].Reading?
    case Write(c) => c in s.calls && s.calls[c].Writing?
  }

  function Step(s: Race, e: Event): Race
    requires Enabled(s, e)
  {
    match e
    case Begin(c, m) => s.(calls := s.calls[c := Reading(m, 0, |s.table|)])
    case Read(c) =>
      var k := s.calls[c];
      s.(calls := s.calls[c := Writing(k.message, k.attempt, k.began, NextEvenSeq(s.table))])
    case Write(c) =>
      var k := s.calls[c];
      (match TryInsert(s.table, RowOf(k.message, k.seqNo))
       case Inserted(t) => Race(t, s.calls[c := Succeeded])
       case IdTaken => s.(calls := s.calls[c := FailedOnId])
       case SeqTaken =>
         if k.attempt < MAX_ATTEMPTS - 1
         then s.(calls := s.calls[c := Reading(k.message, k.attempt + 1, k.began)])
         else s.(calls := s.calls[c := FailedOnSeq(k.began)]))
  }

  predicate RunOk(s: Race, es: seq<Event>)
    decreases |es|
  {
    es == [] || (Enabled(s, es[0]) && RunOk(Step(s, es[0]), es[1..]))
  }

  function Run(s: Race, es: seq<Event>): Race
    requires RunOk(s, es)
    decreases |es|
  {
    if es == [] then s else Run(Step(s, es[0]), es[1..])
  }

  /** Every earlier attempt lost to at least one commit of another call. */
  ghost predicate CallOk(k: Call, rows: nat) {
    match k
    case Reading(_, attempt, began) => attempt < MAX_ATTEMPTS && began + attempt <= rows
    case Writing(_, attempt, began, n) =>
      attempt < MAX_ATTEMPTS && n % 2 == 0 && 2 * (began + attempt + 1) <= n <= 2 * (rows + 1)
    case Succeeded => true
    case FailedOnId => true
    case FailedOnSeq(began) => began + MAX_ATTEMPTS <= rows
  }

  ghost predicate Inv(s: Race) {
    Dense(s.table) && forall c :: c in s.calls ==> CallOk(s.calls[c], |s.table|)
  }

  lemma StepKeepsInv(s: Race, e: Event)
    requires Inv(s) && Enabled(s, e)
    ensures Inv(Step(s, e))
  {
    NextOfDense(s.table);
    if e.Write? {
      var k := s.calls[e.call];
      var i := k.seqNo / 2 - 1;
      assert k.seqNo <= 2 * |s.table| ==> s.table[i].seqNo == k.seqNo;
    }
  }

  lemma {:induction false} RunKeepsInv(s: Race, es: seq<Event>)
    requires Inv(s) && RunOk(s, es)
    ensures Inv(Run(s, es))
    decreases |es|
  {
    hide Step, Inv, Enabled;
    if es != [] {
      StepKeepsInv(s, es[0]);
      RunKeepsInv(Step(s, es[0]), es[1..]);
    }
  }

  /** From an empty table, every run leaves seq at exactly 2, 4, …, 2n in commit order, and a
      call that failed on seq saw at least 32 rows committed while it ran. */
  lemma RacingInsertsAreDense(es: seq<Event>)
    requires RunOk(Race([], map[]), es)
    ensures
      var s := Run(Race([], map[]), es);
      && Dense(s.table)
      && forall c :: c in s.calls && s.calls[c].FailedOnSeq? ==> |s.table| - s.calls[c].began >= 32
  {
    RunKeepsInv(Race([], map[]), es);
  }

  /** A write collides exactly when some other call committed since this call read. */
  lemma CollidesIffOvertaken(s: Race, c: nat, later: Race)
    requires Inv(s) && Inv(later) && s.table <= later.table
    requires c in later.calls && later.calls[c].Writing? && later.calls[c].seqNo == NextEvenSeq(s.table)
    requires !HasId(later.table, later.calls[c].message.id)
    ensures TryInsert(later.table, RowOf(later.calls[c].message, later.calls[c].seqNo)).SeqTaken? <==>
      |later.table| > |s.table|
  {
    NextOfDense(s.table);
    if |later.table| > |s.table| {
      assert later.table[|s.table|].seqNo == later.calls[c].seqNo;
    }
  }
}

/** Outbound delivery (src/delivery.ts, src/outbound-wake.ts): draining a session's outbox with
    retries, and every interleaving of the active poll, the sweep poll and the wake server.
    deliverMessage is an environment step that resolves or throws. */
module Delivery {
  import opened Wrappers

  const MAX_DELIVERY_ATTEMPTS := 3

  /** One row of the delivered table. */
  datatype Row = Delivered(platformMessageId: Option<string>) | GivenUp

  datatype Tables = Tables(delivered: map<string, Row>, attempts: map<string, nat>)

  function AttemptsOf(t: Tables, id: string): nat {
    if id in t.attempts then t.attempts[id] else 0
  }

  /** INSERT OR IGNORE */
  function Recorded(d: map<string, Row>, id: string, row: Row): map<string, Row> {
    if id in d then d else d[id := row]
  }

  function AfterSuccess(t: Tables, id: string, platformMessageId: Option<string>): Tables {
    Tables(Recorded(t.delivered, id, Delivered(platformMessageId)), t.attempts - {id})
  }

  function AfterFailure(t: Tables, id: string): Tables {
    var n := AttemptsOf(t, id) + 1;
    if n >= MAX_DELIVERY_ATTEMPTS then Tables(Recorded(t.delivered, id, GivenUp), t.attempts - {id})
    else t.(attempts := t.attempts[id := n])
  }

  function Undelivered(due: seq<string>, d: map<string, Row>): seq<string> {
    if due == [] then [] else
    Undelivered(due[..|due| - 1], d) + if due[|due| - 1] in d then [] else [due[|due| - 1]]
  }

  datatype Attempt = Resolved(platformMessageId: Option<string>) | Threw

  function AfterAttempt(t: Tables, id: string, a: Attempt): Tables {
    match a
    case Resolved(p) => AfterSuccess(t, id, p)
    case Threw => AfterFailure(t, id)
  }

  /** The write of the given-up row throws: the count stays, and the exception ends the drain. */
  function AfterLostGiveUp(t: Tables, id: string): Tables {
    t.(attempts := t.attempts[id := AttemptsOf(t, id) + 1])
  }

  /** The attempt is the one after which the message is to be given up, and that cannot be written. */
  predicate GiveUpFails(t: Tables, id: string, a: Attempt, giveUpWritten: bool) {
    a.Threw? && AttemptsOf(t, id) + 1 >= MAX_DELIVERY_ATTEMPTS && !giveUpWritten
  }

  /** Recorded, or waiting with one or two failed attempts. */
  predicate Accounted(t: Tables, id: string) {
    id in t.delivered || (id in t.attempts && 1 <= t.attempts[id] <= 2)
  }

  predicate Distinct(s: seq<string>) {
    forall i, j :: 0 <= i < j < |s| ==> s[i] != s[j]
  }

  /** Two states agree about one message. */
  predicate SameAt(t: Tables, u: Tables, id: string) {
    && (id in t.delivered <==> id in u.delivered)
    && (id in t.delivered ==> t.delivered[id] == u.delivered[id])
    && (id in t.attempts <==> id in u.attempts)
    && (id in t.attempts ==> t.attempts[id] == u.attempts[id])
  }

  lemma SameAtSelf(t: Tables, id: string)
    ensures SameAt(t, t, id)
  {
  }

  lemma SameAtTrans(t: Tables, u: Tables, v: Tables, id: string)
    requires SameAt(t, u, id) && SameAt(u, v, id)
    ensures SameAt(t, v, id)
  {
  }

  lemma AccountedAt(t: Tables, u: Tables, id: string)
    requires SameAt(t, u, id) && Accounted(u, id)
    ensures Accounted(t, id)
  {
  }

  lemma AttemptIsLocal(t: Tables, id: string, a: Attempt, other: string)
    requires other != id
    ensures SameAt(AfterAttempt(t, id, a), t, other) && SameAt(AfterLostGiveUp(t, id), t, other)
  {
  }

  lemma AttemptDependsOnId(t: Tables, u: Tables, id: string, a: Attempt, giveUpWritten: bool)
    requires SameAt(t, u, id)
    ensures SameAt(AfterAttempt(t, id, a), AfterAttempt(u, id, a), id)
    ensures SameAt(AfterLostGiveUp(t, id), AfterLostGiveUp(u, id), id)
    ensures GiveUpFails(t, id, a, giveUpWritten) == GiveUpFails(u, id, a, giveUpWritten)
  {
  }

  lemma AttemptAccounts(t: Tables, id: string, a: Attempt)
    ensures Accounted(AfterAttempt(t, id, a), id)
  {
  }

  lemma {:induction false} UndeliveredAreDue(due: seq<string>, d: map<string, Row>)
    ensures forall id :: id in Undelivered(due, d) <==> id in due && id !in d
  {
    if due != [] {
      UndeliveredAreDue(due[..|due| - 1], d);
    }
  }

  lemma {:induction false} UndeliveredIsFilter(due: seq<string>, d: map<string, Row>)
    requires Distinct(due)
    ensures Distinct(Undelivered(due, d))
    ensures forall id :: id in Undelivered(due, d) <==> id in due && id !in d
  {
    if due != [] {
      UndeliveredIsFilter(due[..|due| - 1], d);
    }
  }

  /** Of two unrecorded messages the one due first stands first. */
  lemma {:induction false} UndeliveredKeepsOrder(due: seq<string>, d: map<string, Row>, i: nat, j: nat)
    returns (m: nat, n: nat)
    requires i < j < |due| && due[i] !in d && due[j] !in d
    ensures m < n < |Undelivered(due, d)|
    ensures Undelivered(due, d)[m] == due[i] && Undelivered(due, d)[n] == due[j]
  {
    var init := due[..|due| - 1];
    var before := Undelivered(init, d);
    if j < |init| {
      m, n := UndeliveredKeepsOrder(init, d, i, j);
    } else {
      UndeliveredAreDue(init, d);
      assert init[i] in before;
      m, n := var k :| 0 <= k < |before| && before[k] == due[i]; k, |before|;
    }
  }

  class DeliveryHost {
    var delivered: map<string, Row>
    var deliveryAttempts: map<string, nat>
    var inflightDeliveries: set<string>

    ghost function Now(): Tables
      reads this
    {
      Tables(delivered, deliveryAttempts)
    }

    constructor ()
      ensures Now() == Tables(map[], map[]) && inflightDeliveries == {}
    {
      delivered, deliveryAttempts, inflightDeliveries := map[], map[], {};
    }

    /** The re-entry guard and the reads, up to the first await. */
    method BeginDelivery(sid: string, due: seq<string>) returns (started: bool, undelivered: seq<string>)
      modifies this`inflightDeliveries
      ensures started <==> sid !in old(inflightDeliveries)
      ensures inflightDeliveries == old(inflightDeliveries) + {sid}
      ensures started ==> undelivered == Undelivered(due, delivered)
      ensures started ==> forall id :: id in undelivered <==> id in due && id !in delivered
      ensures started && Distinct(due) ==> Distinct(undelivered)
      ensures started ==> forall i, j :: 0 <= i < j < |due| && due[i] !in delivered && due[j] !in delivered ==>
        exists m, n :: 0 <= m < n < |undelivered| && undelivered[m] == due[i] && undelivered[n] == due[j]
    {
      if sid in inflightDeliveries {
        return false, [];
      }
      inflightDeliveries := inflightDeliveries + {sid};
      undelivered := [];
      for i := 0 to |due|
        invariant undelivered == Undelivered(due[..i], delivered)
      {
        assert due[..i + 1][..i] == due[..i];
        if due[i] !in delivered {
          undelivered := undelivered + [due[i]];
        }
      }
      assert due[..|due|] == due;
      UndeliveredAreDue(due, delivered);
      if Distinct(due) {
        UndeliveredIsFilter(due, delivered);
      }
      forall i, j | 0 <= i < j < |due| && due[i] !in delivered && due[j] !in delivered
        ensures exists m, n :: 0 <= m < n < |undelivered| && undelivered[m] == due[i] && undelivered[n] == due[j]
      {
        var m, n := UndeliveredKeepsOrder(due, delivered, i, j);
        assert undelivered[m] == due[i] && undelivered[n] == due[j];
      }
      started := true;
    }

    method EndDelivery(sid: string)
      modifies this`inflightDeliveries
      ensures inflightDeliveries == old(inflightDeliveries) - {sid}
    {
      inflightDeliveries := inflightDeliveries - {sid};
    }

    /** The section after one deliverMessage call has resolved or thrown; it throws itself if the given-up
        row cannot be written. */
    method OnAttempt(id: string, a: Attempt, giveUpWritten: bool) returns (threw: bool)
      modifies this`delivered, this`deliveryAttempts
      ensures threw <==> GiveUpFails(old(Now()), id, a, giveUpWritten)
      ensures Now() == if threw then AfterLostGiveUp(old(Now()), id) else AfterAttempt(old(Now()), id, a)
      // A message that resolved is recorded with what the platform answered, and its count is gone.
      ensures a.Resolved? ==>
        && !threw && deliveryAttempts == old(deliveryAttempts) - {id}
        && delivered ==
             if id in old(delivered) then old(delivered) else old(delivered)[id := Delivered(a.platformMessageId)]
      // One that threw is counted, and given up at its third failure.
      ensures a.Threw? ==>
        var n := (if id in old(deliveryAttempts) then old(deliveryAttempts)[id] else 0) + 1;
        && (threw <==> n >= 3 && !giveUpWritten)
        && deliveryAttempts ==
             (if n >= 3 && giveUpWritten then old(deliveryAttempts) - {id} else old(deliveryAttempts)[id := n])
        && delivered ==
             if n >= 3 && giveUpWritten && id !in old(delivered) then old(delivered)[id := GivenUp] else old(delivered)
    {
      threw := false;
      match a {
        case Resolved(p) =>
          delivered := Recorded(delivered, id, Delivered(p));
          deliveryAttempts := deliveryAttempts - {id};
        case Threw =>
          var attempts := (if id in deliveryAttempts then deliveryAttempts[id] else 0) + 1;
          deliveryAttempts := deliveryAttempts[id := attempts];
          if attempts >= MAX_DELIVERY_ATTEMPTS {
            if !giveUpWritten {
              return true;
            }
            delivered := Recorded(delivered, id, GivenUp);
            deliveryAttempts := deliveryAttempts - {id};
            assert deliveryAttempts == old(deliveryAttempts) - {id};
          }
      }
    }

    /** The drain loop on its own: each message before done has had exactly its one attempt and is
        accounted for; the loop stops early only at a message that could not be given up; nothing
        else has changed. */
    method DrainLoop(undelivered: seq<string>, results: seq<Attempt>, giveUpWritten: seq<bool>) returns (done: nat)
      requires Distinct(undelivered) && |results| == |giveUpWritten| == |undelivered|
      modifies this`delivered, this`deliveryAttempts
      ensures done <= |undelivered|
      ensures forall i :: 0 <= i < done ==>
        && SameAt(Now(), AfterAttempt(old(Now()), undelivered[i], results[i]), undelivered[i])
        && Accounted(Now(), undelivered[i])
        && !GiveUpFails(old(Now()), undelivered[i], results[i], giveUpWritten[i])
      ensures done < |undelivered| ==>
        && GiveUpFails(old(Now()), undelivered[done], results[done], giveUpWritten[done])
        && SameAt(Now(), AfterLostGiveUp(old(Now()), undelivered[done]), undelivered[done])
      ensures forall i :: done < i < |undelivered| ==> SameAt(Now(), old(Now()), undelivered[i])
      ensures forall id :: id !in undelivered ==> SameAt(Now(), old(Now()), id)
    {
      hide AfterAttempt, AfterLostGiveUp, SameAt, Accounted, GiveUpFails;
      ghost var start := Now();
      forall id ensures SameAt(start, start, id) {
        SameAtSelf(start, id);
      }
      done := 0;
      while done < |undelivered|
        invariant done <= |undelivered|
        invariant forall k :: 0 <= k < done ==>
          && SameAt(Now(), AfterAttempt(start, undelivered[k], results[k]), undelivered[k])
          && Accounted(Now(), undelivered[k])
          && !GiveUpFails(start, undelivered[k], results[k], giveUpWritten[k])
        invariant forall id :: id !in undelivered[..done] ==> SameAt(Now(), start, id)
      {
        ghost var before := Now();
        var id, a := undelivered[done], results[done];
        var threw := OnAttempt(id, a, giveUpWritten[done]);
        forall other | other != id ensures SameAt(Now(), before, other) {
          AttemptIsLocal(before, id, a, other);
        }
        AttemptDependsOnId(before, start, id, a, giveUpWritten[done]);
        assert undelivered[..done + 1] == undelivered[..done] + [id];
        forall k | 0 <= k < done
          ensures SameAt(Now(), AfterAttempt(start, undelivered[k], results[k]), undelivered[k])
          ensures Accounted(Now(), undelivered[k])
        {
          SameAtTrans(Now(), before, AfterAttempt(start, undelivered[k], results[k]), undelivered[k]);
          AccountedAt(Now(), before, undelivered[k]);
        }
        forall other | other !in undelivered[..done + 1] ensures SameAt(Now(), start, other) {
          SameAtTrans(Now(), before, start, other);
        }
        if threw {
          return;
        }
        AttemptAccounts(before, id, a);
        done := done + 1;
      }
    }
  }

  // -------------------------------------------------------------- whole runs

  /** A drain in progress: the ids it has handled, and those it has not; the first of the rest
      is with the adapter right now. */
  datatype Drain = Drain(sid: string, handled: seq<string>, rest: seq<string>)

  /** calls counts deliverMessage calls begun for an id, successes those that resolved, and lostGiveUps the
      given-up rows that could not be written. */
  datatype World = World(
    tables: Tables,
    inflight: set<string>,
    drains: map<nat, Drain>,
    calls: map<string, nat>,
    successes: map<string, nat>,
    lostGiveUps: map<string, nat>)

  /** Poll covers all three callers of deliverSessionMessages.  Unrecorded is a delivery that resolved but
      whose table write threw.  GiveUpLost is an attempt that threw, or resolved unrecorded, and whose
      given-up row could not be written either. */
  datatype Event =
    | Poll(n: nat, sid: string, due: seq<string>)
    | Attempted(n: nat, a: Attempt)
    | Unrecorded(n: nat)
    | GiveUpLost(n: nat, resolved: bool)
    | Finish(n: nat)

  function Get(m: map<string, nat>, id: string): nat {
    if id in m then m[id] else 0
  }

  /** A drain that has a message left has just begun to deliver it. */
  function Begun(w: World, rest: seq<string>): World {
    if rest == [] then w else w.(calls := w.calls[rest[0] := Get(w.calls, rest[0]) + 1])
  }

  /** Ids are unique in an outbox and belong to one session only. */
  predicate Enabled(w: World, owner: string -> string, e: Event) {
    match e
    case Poll(n, sid, due) => n !in w.drains && Distinct(due) && forall id :: id in due ==> owner(id) == sid
    case Attempted(n, _) => n in w.drains && w.drains[n].rest != []
    case Unrecorded(n) => n in w.drains && w.drains[n].rest != []
    case GiveUpLost(n, _) =>
      n in w.drains && w.drains[n].rest != [] && GiveUpFails(w.tables, w.drains[n].rest[0], Threw, false)
    case Finish(n) => n in w.drains && w.drains[n].rest == []
  }

  function Advanced(d: Drain): Drain
    requires d.rest != []
  {
    Drain(d.sid, d.handled + [d.rest[0]], d.rest[1..])
  }

  function AfterPoll(w: World, n: nat, sid: string, due: seq<string>): World {
    if sid in w.inflight then w else
    var rest := Undelivered(due, w.tables.delivered);
    Begun(w.(inflight := w.inflight + {sid}, drains := w.drains[n := Drain(sid, [], rest)]), rest)
  }

  function AfterResult(w: World, n: nat, a: Attempt, resolved: bool): World
    requires n in w.drains && w.drains[n].rest != []
  {
    var d := w.drains[n];
    var id := d.rest[0];
    Begun(
      w.(tables := AfterAttempt(w.tables, id, a),
         drains := w.drains[n := Advanced(d)],
         successes := if resolved then w.successes[id := Get(w.successes, id) + 1] else w.successes),
      d.rest[1..])
  }

  function AfterGiveUpLost(w: World, n: nat, resolved: bool): World
    requires n in w.drains && w.drains[n].rest != []
  {
    var d := w.drains[n];
    var id := d.rest[0];
    w.(tables := AfterLostGiveUp(w.tables, id),
       inflight := w.inflight - {d.sid},
       drains := w.drains - {n},
       successes := if resolved then w.successes[id := Get(w.successes, id) + 1] else w.successes,
       lostGiveUps := w.lostGiveUps[id := Get(w.lostGiveUps, id) + 1])
  }

  function Step(w: World, owner: string -> string, e: Event): World
    requires Enabled(w, owner, e)
  {
    match e
    case Poll(n, sid, due) => AfterPoll(w, n, sid, due)
    case Attempted(n, a) => AfterResult(w, n, a, a.Resolved?)
    case Unrecorded(n) => AfterResult(w, n, Threw, true)
    case GiveUpLost(n, resolved) => AfterGiveUpLost(w, n, resolved)
    case Finish(n) => w.(inflight := w.inflight - {w.drains[n].sid}, drains := w.drains - {n})
  }

  predicate RunOk(w: World, owner: string -> string, es: seq<Event>)
    decreases |es|
  {
    es == [] || (Enabled(w, owner, es[0]) && RunOk(Step(w, owner, es[0]), owner, es[1..]))
  }

  function Run(w: World, owner: string -> string, es: seq<Event>): World
    requires RunOk(w, owner, es)
    decreases |es|
  {
    if es == [] then w else Run(Step(w, owner, es[0]), owner, es[1..])
  }

  /** A host start: attempt counts are gone, the delivered table may have rows. */
  function HostStart(delivered: map<string, Row>): World {
    World(Tables(delivered, map[]), {}, map[], map[], map[], map[])
  }

  /** A delivery that resolved and left no record. */
  predicate Unseen(e: Event) {
    e.Unrecorded? || (e.GiveUpLost? && e.resolved)
  }

  predicate RecordsSucceed(es: seq<Event>) {
    forall e :: e in es ==> !Unseen(e)
  }

  ghost predicate DrainTrue(w: World, owner: string -> string, n: nat)
    requires n in w.drains
  {
    var d := w.drains[n];
    && d.sid in w.inflight
    && Distinct(d.handled + d.rest)
    && (forall id :: id in d.handled + d.rest ==> owner(id) == d.sid)
    && (forall id :: id in d.rest ==> id !in w.tables.delivered)
    && (forall id :: id in d.handled ==> Accounted(w.tables, id))
  }

  /** Some drain has this id with the adapter. */
  ghost predicate Underway(w: World, id: string) {
    exists n :: n in w.drains && w.drains[n].rest != [] && w.drains[n].rest[0] == id
  }

  ghost predicate CountsTrue(w: World, start: map<string, Row>, id: string) {
    var calls, successes, lost := Get(w.calls, id), Get(w.successes, id), Get(w.lostGiveUps, id);
    var attempts := AttemptsOf(w.tables, id);
    if id in start then
      calls == successes == lost == 0 && id in w.tables.delivered && w.tables.delivered[id] == start[id]
    else if id in w.tables.delivered then
      && id !in w.tables.attempts
      && if w.tables.delivered[id].Delivered? then successes == 1 && calls <= 3 + lost
         else successes == 0 && calls == 3 + lost
    else
      && successes == 0 && lost == (if attempts > 2 then attempts - 2 else 0)
      && calls == attempts + if Underway(w, id) then 1 else 0
  }

  ghost predicate Inv(w: World, owner: string -> string, start: map<string, Row>) {
    && (forall n :: n in w.drains ==> DrainTrue(w, owner, n))
    && (forall m, n :: m in w.drains && n in w.drains && w.drains[m].sid == w.drains[n].sid ==> m == n)
    && (forall id: string :: CountsTrue(w, start, id))
  }

  // ------------------------------------------------------------ a new drain

  lemma NewDrainIsTrue(w: World, owner: string -> string, n: nat, sid: string, due: seq<string>)
    requires Enabled(w, owner, Poll(n, sid, due)) && sid !in w.inflight
    ensures n in AfterPoll(w, n, sid, due).drains && DrainTrue(AfterPoll(w, n, sid, due), owner, n)
  {
    hide Undelivered;
    UndeliveredIsFilter(due, w.tables.delivered);
    var rest := Undelivered(due, w.tables.delivered);
    assert [] + rest == rest;
  }

  lemma OldDrainStaysTrue(w: World, owner: string -> string, n: nat, sid: string, due: seq<string>, k: nat)
    requires k in w.drains && k != n && DrainTrue(w, owner, k) && sid !in w.inflight
    ensures var w' := AfterPoll(w, n, sid, due);
      k in w'.drains && w'.drains[k] == w.drains[k] && DrainTrue(w', owner, k)
  {
    hide Undelivered, Accounted, Distinct;
  }

  lemma PollKeepsDrains(w: World, owner: string -> string, n: nat, sid: string, due: seq<string>)
    requires forall k :: k in w.drains ==> DrainTrue(w, owner, k)
    requires Enabled(w, owner, Poll(n, sid, due)) && sid !in w.inflight
    ensures
      var w' := AfterPoll(w, n, sid, due);
      && (forall k :: k in w'.drains ==> DrainTrue(w', owner, k))
      && (forall k, m :: k in w'.drains && m in w.drains && k != m && w'.drains[k].sid == w'.drains[m].sid ==> k != n)
  {
    hide Undelivered, Distinct, Accounted;
    var w' := AfterPoll(w, n, sid, due);
    forall k | k in w'.drains ensures DrainTrue(w', owner, k) {
      if k == n {
        NewDrainIsTrue(w, owner, n, sid, due);
      } else {
        OldDrainStaysTrue(w, owner, n, sid, due, k);
      }
    }
    forall m | m in w.drains ensures w.drains[m].sid != sid && w'.drains[m] == w.drains[m] {
      OldDrainStaysTrue(w, owner, n, sid, due, m);
    }
    hide DrainTrue;
  }

  lemma HeadsAreInFlight(w: World, owner: string -> string, id: string)
    requires forall k :: k in w.drains ==> DrainTrue(w, owner, k)
    ensures Underway(w, id) ==> owner(id) in w.inflight
  {
    if k :| k in w.drains && w.drains[k].rest != [] && w.drains[k].rest[0] == id {
      assert DrainTrue(w, owner, k);
      assert id in w.drains[k].handled + w.drains[k].rest;
    }
  }

  /** A poll puts the first message of its list, and nothing else, with the adapter. */
  lemma PollMovesHeads(w: World, n: nat, sid: string, due: seq<string>, id: string)
    requires n !in w.drains && sid !in w.inflight
    ensures
      var rest := Undelivered(due, w.tables.delivered);
      Underway(AfterPoll(w, n, sid, due), id) <==> Underway(w, id) || (rest != [] && rest[0] == id)
  {
    hide Undelivered;
    var w' := AfterPoll(w, n, sid, due);
    if k :| k in w.drains && w.drains[k].rest != [] && w.drains[k].rest[0] == id {
      assert w'.drains[k] == w.drains[k];
    }
    assert w'.drains[n].rest == Undelivered(due, w.tables.delivered);
  }

  lemma InvAt(w: World, owner: string -> string, start: map<string, Row>, id: string)
    requires Inv(w, owner, start)
    ensures CountsTrue(w, start, id) && (Underway(w, id) ==> owner(id) in w.inflight)
  {
    hide CountsTrue, DrainTrue;
    HeadsAreInFlight(w, owner, id);
  }

  lemma PollHead(w: World, owner: string -> string, n: nat, sid: string, due: seq<string>)
    requires Enabled(w, owner, Poll(n, sid, due))
    ensures var rest := Undelivered(due, w.tables.delivered);
      n !in w.drains && (rest != [] ==> owner(rest[0]) == sid && rest[0] !in w.tables.delivered)
  {
    UndeliveredIsFilter(due, w.tables.delivered);
    var rest := Undelivered(due, w.tables.delivered);
    assert rest != [] ==> rest[0] in rest;
  }

  lemma PollKeepsCounts(
      w: World, owner: string -> string, start: map<string, Row>, n: nat, sid: string, due: seq<string>, id: string)
    requires Inv(w, owner, start) && Enabled(w, owner, Poll(n, sid, due)) && sid !in w.inflight
    ensures CountsTrue(AfterPoll(w, n, sid, due), start, id)
  {
    hide Underway, DrainTrue, Inv, Enabled, Undelivered;
    InvAt(w, owner, start, id);
    PollHead(w, owner, n, sid, due);
    PollMovesHeads(w, n, sid, due, id);
  }

  // ------------------------------------------------- one attempt's outcome

  lemma OtherDrainUntouched(w: World, owner: string -> string, n: nat, k: nat, a: Attempt, resolved: bool)
    requires n in w.drains && w.drains[n].rest != [] && DrainTrue(w, owner, n)
    requires k in w.drains && DrainTrue(w, owner, k) && w.drains[k].sid != w.drains[n].sid
    ensures k in AfterResult(w, n, a, resolved).drains && DrainTrue(AfterResult(w, n, a, resolved), owner, k)
  {
    var d, id := w.drains[k], w.drains[n].rest[0];
    assert id in w.drains[n].handled + w.drains[n].rest;
    forall x | x in d.handled + d.rest ensures SameAt(AfterAttempt(w.tables, id, a), w.tables, x) {
      AttemptIsLocal(w.tables, id, a, x);
    }
    forall x | x in d.rest ensures x in d.handled + d.rest {}
    forall x | x in d.handled ensures x in d.handled + d.rest {}
  }

  lemma OwnDrainAdvances(w: World, owner: string -> string, n: nat, a: Attempt, resolved: bool)
    requires n in w.drains && w.drains[n].rest != [] && DrainTrue(w, owner, n)
    ensures n in AfterResult(w, n, a, resolved).drains && DrainTrue(AfterResult(w, n, a, resolved), owner, n)
  {
    var w' := AfterResult(w, n, a, resolved);
    var d, d', id := w.drains[n], w'.drains[n], w.drains[n].rest[0];
    assert d'.handled + d'.rest == d.handled + d.rest;
    AttemptAccounts(w.tables, id, a);
    var all := d.handled + d.rest;
    assert all[|d.handled|] == id;
    forall i | 0 <= i < |all| && i != |d.handled| ensures SameAt(w'.tables, w.tables, all[i]) {
      AttemptIsLocal(w.tables, id, a, all[i]);
    }
    forall x | x in d'.rest ensures x !in w'.tables.delivered {
      var i :| 0 <= i < |d'.rest| && d'.rest[i] == x;
      assert all[|d.handled| + 1 + i] == x && x in d.rest;
    }
    forall x | x in d'.handled ensures Accounted(w'.tables, x) {
      if x != id {
        var i :| 0 <= i < |d.handled| && d.handled[i] == x;
        assert all[i] == x;
      }
    }
  }

  /** The message with the adapter is unrecorded, and this call is counted. */
  lemma CountOfHead(w: World, start: map<string, Row>, owner: string -> string, n: nat)
    requires n in w.drains && w.drains[n].rest != [] && DrainTrue(w, owner, n)
    requires CountsTrue(w, start, w.drains[n].rest[0])
    ensures var id := w.drains[n].rest[0];
      && id !in start && id !in w.tables.delivered
      && Get(w.lostGiveUps, id) == (if AttemptsOf(w.tables, id) > 2 then AttemptsOf(w.tables, id) - 2 else 0)
      && Get(w.successes, id) == 0 && Get(w.calls, id) == AttemptsOf(w.tables, id) + 1
  {
    var id := w.drains[n].rest[0];
    assert id in w.drains[n].rest;
    assert Underway(w, id);
  }

  lemma ResultKeepsDrains(w: World, owner: string -> string, start: map<string, Row>, n: nat, a: Attempt)
    requires Inv(w, owner, start) && n in w.drains && w.drains[n].rest != []
    ensures
      var w' := AfterResult(w, n, a, a.Resolved?);
      && (forall k :: k in w'.drains ==> DrainTrue(w', owner, k))
      && (forall j, k :: j in w'.drains && k in w'.drains && w'.drains[j].sid == w'.drains[k].sid ==> j == k)
  {
    var w' := AfterResult(w, n, a, a.Resolved?);
    hide DrainTrue, CountsTrue;
    assert DrainTrue(w, owner, n);
    forall k | k in w'.drains ensures DrainTrue(w', owner, k) {
      assert DrainTrue(w, owner, k);
      if k == n {
        OwnDrainAdvances(w, owner, n, a, a.Resolved?);
      } else {
        OtherDrainUntouched(w, owner, n, k, a, a.Resolved?);
      }
    }
  }

  /** Where the heads are after a result: the old head is with nobody, the next one begins. */
  lemma HeadsMove(w: World, owner: string -> string, start: map<string, Row>, n: nat, a: Attempt, id: string)
    requires Inv(w, owner, start) && n in w.drains && w.drains[n].rest != []
    ensures
      var w', d := AfterResult(w, n, a, a.Resolved?), w.drains[n];
      && (id == d.rest[0] ==> !Underway(w', id))
      && (|d.rest| > 1 && id == d.rest[1] ==> Underway(w', id) && !Underway(w, id) && id != d.rest[0])
      && (id != d.rest[0] && !(|d.rest| > 1 && id == d.rest[1]) ==> (Underway(w', id) <==> Underway(w, id)))
  {
    var w', d := AfterResult(w, n, a, a.Resolved?), w.drains[n];
    assert DrainTrue(w, owner, n);
    assert (d.handled + d.rest)[|d.handled|] == d.rest[0];
    assert |d.rest| > 1 ==> (d.handled + d.rest)[|d.handled| + 1] == d.rest[1];
    if k :| k in w.drains && k != n && w.drains[k].rest != [] && w.drains[k].rest[0] == id {
      assert DrainTrue(w, owner, k);
      assert id in w.drains[k].handled + w.drains[k].rest;
      assert w'.drains[k] == w.drains[k];
      assert id !in d.handled + d.rest;
    }
    assert w'.drains[n].rest == d.rest[1..];
  }

  lemma HeadStaysCounted(w: World, start: map<string, Row>, n: nat, a: Attempt)
    requires n in w.drains && w.drains[n].rest != []
    requires var id := w.drains[n].rest[0];
      && id !in start && id !in w.tables.delivered
      && Get(w.lostGiveUps, id) == (if AttemptsOf(w.tables, id) > 2 then AttemptsOf(w.tables, id) - 2 else 0)
      && Get(w.successes, id) == 0 && Get(w.calls, id) == AttemptsOf(w.tables, id) + 1
      && !Underway(AfterResult(w, n, a, a.Resolved?), id)
      && (|w.drains[n].rest| > 1 ==> w.drains[n].rest[1] != id)
    ensures CountsTrue(AfterResult(w, n, a, a.Resolved?), start, w.drains[n].rest[0])
  {
    hide Underway;
  }

  lemma OtherStaysCounted(w: World, start: map<string, Row>, n: nat, a: Attempt, id: string)
    requires n in w.drains && w.drains[n].rest != [] && id != w.drains[n].rest[0] && CountsTrue(w, start, id)
    requires var w', rest := AfterResult(w, n, a, a.Resolved?), w.drains[n].rest;
      if |rest| > 1 && id == rest[1] then Underway(w', id) && !Underway(w, id) && id !in w.tables.delivered
      else Underway(w', id) == Underway(w, id)
    ensures CountsTrue(AfterResult(w, n, a, a.Resolved?), start, id)
  {
    hide Underway, AfterAttempt;
    AttemptIsLocal(w.tables, w.drains[n].rest[0], a, id);
  }

  lemma RestIsUnrecorded(w: World, owner: string -> string, start: map<string, Row>, n: nat)
    requires Inv(w, owner, start) && n in w.drains
    ensures DrainTrue(w, owner, n)
    ensures forall i :: 0 <= i < |w.drains[n].rest| ==> w.drains[n].rest[i] !in w.tables.delivered
    ensures forall i :: 1 <= i < |w.drains[n].rest| ==> w.drains[n].rest[i] != w.drains[n].rest[0]
  {
    hide CountsTrue;
    assert DrainTrue(w, owner, n);
    var d := w.drains[n];
    forall i | 1 <= i < |d.rest| ensures d.rest[i] != d.rest[0] {
      assert (d.handled + d.rest)[|d.handled| + i] == d.rest[i] && (d.handled + d.rest)[|d.handled|] == d.rest[0];
    }
  }

  lemma ResultKeepsCounts(w: World, owner: string -> string, start: map<string, Row>, n: nat, a: Attempt, id: string)
    requires Inv(w, owner, start) && n in w.drains && w.drains[n].rest != []
    ensures CountsTrue(AfterResult(w, n, a, a.Resolved?), start, id)
  {
    var d := w.drains[n];
    InvAt(w, owner, start, id);
    InvAt(w, owner, start, d.rest[0]);
    HeadsMove(w, owner, start, n, a, id);
    RestIsUnrecorded(w, owner, start, n);
    hide Underway, Inv, AfterResult, CountsTrue, DrainTrue;
    CountOfHead(w, start, owner, n);
    if id == d.rest[0] {
      HeadStaysCounted(w, start, n, a);
    } else {
      OtherStaysCounted(w, start, n, a, id);
    }
  }

  lemma FinishKeepsInv(w: World, owner: string -> string, start: map<string, Row>, n: nat)
    requires Inv(w, owner, start) && n in w.drains && w.drains[n].rest == []
    ensures Inv(Step(w, owner, Finish(n)), owner, start)
  {
    var w' := Step(w, owner, Finish(n));
    forall k | k in w'.drains ensures DrainTrue(w', owner, k) {
      assert DrainTrue(w, owner, k);
    }
    forall id: string ensures CountsTrue(w', start, id) {
      assert CountsTrue(w, start, id);
      assert Underway(w, id) <==> Underway(w', id) by {
        if k :| k in w.drains && w.drains[k].rest != [] && w.drains[k].rest[0] == id {
          assert w'.drains[k] == w.drains[k];
        }
      }
    }
  }

  /** Who is underway when a drain ends on a give-up that could not be written. */
  lemma LostGiveUpMovesHeads(w: World, owner: string -> string, n: nat, id: string)
    requires (forall k :: k in w.drains ==> DrainTrue(w, owner, k)) && n in w.drains && w.drains[n].rest != []
    requires forall j, k :: j in w.drains && k in w.drains && w.drains[j].sid == w.drains[k].sid ==> j == k
    ensures Underway(AfterGiveUpLost(w, n, false), id) <==> Underway(w, id) && id != w.drains[n].rest[0]
  {
    var w' := AfterGiveUpLost(w, n, false);
    assert DrainTrue(w, owner, n);
    assert w.drains[n].rest[0] in w.drains[n].handled + w.drains[n].rest;
    if k :| k in w.drains && k != n && w.drains[k].rest != [] && w.drains[k].rest[0] == id {
      assert DrainTrue(w, owner, k);
      assert id in w.drains[k].handled + w.drains[k].rest;
      assert w'.drains[k] == w.drains[k];
    }
  }

  lemma LostGiveUpKeepsDrain(w: World, owner: string -> string, n: nat, k: nat)
    requires n in w.drains && w.drains[n].rest != [] && DrainTrue(w, owner, n)
    requires k in w.drains && DrainTrue(w, owner, k) && w.drains[k].sid != w.drains[n].sid
    ensures k in AfterGiveUpLost(w, n, false).drains && DrainTrue(AfterGiveUpLost(w, n, false), owner, k)
  {
    var d, id := w.drains[k], w.drains[n].rest[0];
    assert id in w.drains[n].handled + w.drains[n].rest;
    forall x | x in d.handled + d.rest ensures SameAt(AfterLostGiveUp(w.tables, id), w.tables, x) {
      AttemptIsLocal(w.tables, id, Threw, x);
    }
    forall x | x in d.rest ensures x in d.handled + d.rest {}
    forall x | x in d.handled ensures x in d.handled + d.rest {}
  }

  lemma LostGiveUpKeepsCounts(w: World, owner: string -> string, start: map<string, Row>, n: nat, id: string)
    requires Inv(w, owner, start) && Enabled(w, owner, GiveUpLost(n, false))
    ensures CountsTrue(AfterGiveUpLost(w, n, false), start, id)
  {
    assert DrainTrue(w, owner, n) && CountsTrue(w, start, w.drains[n].rest[0]) && CountsTrue(w, start, id);
    CountOfHead(w, start, owner, n);
    LostGiveUpMovesHeads(w, owner, n, id);
    hide Underway, DrainTrue, Inv;
  }

  lemma LostGiveUpKeepsInv(w: World, owner: string -> string, start: map<string, Row>, n: nat)
    requires Inv(w, owner, start) && Enabled(w, owner, GiveUpLost(n, false))
    ensures Inv(AfterGiveUpLost(w, n, false), owner, start)
  {
    hide CountsTrue, DrainTrue;
    var w' := AfterGiveUpLost(w, n, false);
    assert DrainTrue(w, owner, n);
    forall k | k in w'.drains ensures DrainTrue(w', owner, k) {
      assert DrainTrue(w, owner, k);
      LostGiveUpKeepsDrain(w, owner, n, k);
    }
    forall id: string ensures CountsTrue(w', start, id) {
      LostGiveUpKeepsCounts(w, owner, start, n, id);
    }
  }

  lemma StepKeepsInv(w: World, owner: string -> string, start: map<string, Row>, e: Event)
    requires Inv(w, owner, start) && Enabled(w, owner, e) && !Unseen(e)
    ensures Inv(Step(w, owner, e), owner, start)
  {
    match e {
      case Poll(n, sid, due) =>
        if sid !in w.inflight {
          PollKeepsDrains(w, owner, n, sid, due);
          forall id: string ensures CountsTrue(AfterPoll(w, n, sid, due), start, id) {
            PollKeepsCounts(w, owner, start, n, sid, due, id);
          }
        }
      case Attempted(n, a) =>
        ResultKeepsDrains(w, owner, start, n, a);
        forall id: string ensures CountsTrue(AfterResult(w, n, a, a.Resolved?), start, id) {
          ResultKeepsCounts(w, owner, start, n, a, id);
        }
      case GiveUpLost(n, _) =>
        LostGiveUpKeepsInv(w, owner, start, n);
      case Finish(n) =>
        FinishKeepsInv(w, owner, start, n);
    }
  }

  lemma {:induction false} RunKeepsInv(w: World, owner: string -> string, start: map<string, Row>, es: seq<Event>)
    requires Inv(w, owner, start) && RunOk(w, owner, es) && RecordsSucceed(es)
    ensures Inv(Run(w, owner, es), owner, start)
    decreases |es|
  {
    hide Step, Enabled, Inv;
    if es != [] {
      assert es[0] in es;
      StepKeepsInv(w, owner, start, es[0]);
      RunKeepsInv(Step(w, owner, es[0]), owner, start, es[1..]);
    }
  }

  lemma StartInv(delivered: map<string, Row>, owner: string -> string)
    ensures Inv(HostStart(delivered), owner, delivered)
  {
    forall id: string ensures CountsTrue(HostStart(delivered), delivered, id) {
    }
  }

  // --------------------------------------------- table writes that may fail

  /** The world but for the success counts. */
  function Observed(w: World): World {
    w.(successes := map[])
  }

  /** A delivery whose record was lost looks to the host like one that threw. */
  function SeenAs(e: Event): (r: Event)
    ensures !Unseen(r)
  {
    match e
    case Unrecorded(n) => Attempted(n, Threw)
    case GiveUpLost(n, _) => GiveUpLost(n, false)
    case _ => e
  }

  function AllSeenAs(es: seq<Event>): (r: seq<Event>)
    ensures RecordsSucceed(r)
  {
    if es == [] then [] else [SeenAs(es[0])] + AllSeenAs(es[1..])
  }

  predicate LosesRecord(w: World, e: Event, id: string)
    requires Unseen(e) ==> e.n in w.drains && w.drains[e.n].rest != []
  {
    Unseen(e) && w.drains[e.n].rest[0] == id
  }

  /** How often a delivery of this message resolved and its record was lost. */
  function LostRecords(w: World, owner: string -> string, es: seq<Event>, id: string): nat
    requires RunOk(w, owner, es)
    decreases |es|
  {
    if es == [] then 0 else
    LostRecords(Step(w, owner, es[0]), owner, es[1..], id) + if LosesRecord(w, es[0], id) then 1 else 0
  }

  lemma ResultSeenAs(w: World, v: World, n: nat, a: Attempt, resolved: bool, seenResolved: bool, id: string)
    requires Observed(w) == Observed(v) && n in w.drains && w.drains[n].rest != []
    ensures Observed(AfterResult(w, n, a, resolved)) == Observed(AfterResult(v, n, a, seenResolved))
    ensures Get(AfterResult(w, n, a, resolved).successes, id) ==
      Get(w.successes, id) + if resolved && w.drains[n].rest[0] == id then 1 else 0
    ensures Get(AfterResult(v, n, a, seenResolved).successes, id) ==
      Get(v.successes, id) + if seenResolved && w.drains[n].rest[0] == id then 1 else 0
  {
    hide AfterAttempt;
  }

  lemma LostGiveUpSeenAs(w: World, v: World, n: nat, resolved: bool, id: string)
    requires Observed(w) == Observed(v) && n in w.drains && w.drains[n].rest != []
    ensures Observed(AfterGiveUpLost(w, n, resolved)) == Observed(AfterGiveUpLost(v, n, false))
    ensures Get(AfterGiveUpLost(w, n, resolved).successes, id) ==
      Get(w.successes, id) + if resolved && w.drains[n].rest[0] == id then 1 else 0
    ensures AfterGiveUpLost(v, n, false).successes == v.successes
  {
  }

  lemma StepSeenAs(w: World, v: World, owner: string -> string, e: Event, id: string)
    requires Observed(w) == Observed(v) && Enabled(w, owner, e)
    ensures Enabled(v, owner, SeenAs(e))
    ensures Observed(Step(w, owner, e)) == Observed(Step(v, owner, SeenAs(e)))
    ensures Get(Step(w, owner, e).successes, id) - Get(w.successes, id) ==
      Get(Step(v, owner, SeenAs(e)).successes, id) - Get(v.successes, id) + if LosesRecord(w, e, id) then 1 else 0
  {
    hide AfterAttempt, Undelivered, AfterResult, AfterGiveUpLost;
    match e {
      case Attempted(n, a) => ResultSeenAs(w, v, n, a, a.Resolved?, a.Resolved?, id);
      case Unrecorded(n) => ResultSeenAs(w, v, n, Threw, true, false, id);
      case GiveUpLost(n, resolved) => LostGiveUpSeenAs(w, v, n, resolved, id);
      case _ =>
    }
  }

  /** Apart from the success counts a run with lost records is a run where those deliveries threw;
      each lost record is one success more. */
  lemma {:induction false} RunSeenAs(w: World, v: World, owner: string -> string, es: seq<Event>, id: string)
    requires Observed(w) == Observed(v) && RunOk(w, owner, es)
    ensures RunOk(v, owner, AllSeenAs(es))
    ensures Observed(Run(w, owner, es)) == Observed(Run(v, owner, AllSeenAs(es)))
    ensures Get(Run(w, owner, es).successes, id) - Get(w.successes, id) ==
      Get(Run(v, owner, AllSeenAs(es)).successes, id) - Get(v.successes, id) + LostRecords(w, owner, es, id)
    decreases |es|
  {
    hide Step, Enabled, SeenAs, LosesRecord, Observed;
    if es != [] {
      StepSeenAs(w, v, owner, es[0], id);
      RunSeenAs(Step(w, owner, es[0]), Step(v, owner, SeenAs(es[0])), owner, es[1..], id);
      assert AllSeenAs(es)[1..] == AllSeenAs(es[1..]);
    }
  }

  /** This host run recorded the message as delivered. */
  predicate RecordedHere(delivered: map<string, Row>, t: Tables, id: string) {
    id !in delivered && id in t.delivered && t.delivered[id].Delivered?
  }

  /** The drains of every run are true, and so are the counts of the run it is seen as. */
  lemma RunsAreTrue(delivered: map<string, Row>, owner: string -> string, es: seq<Event>, id: string)
    returns (v: World)
    requires RunOk(HostStart(delivered), owner, es)
    ensures var w := Run(HostStart(delivered), owner, es);
      && Observed(w) == Observed(v) && Inv(v, owner, delivered)
      && Get(w.successes, id) == Get(v.successes, id) + LostRecords(HostStart(delivered), owner, es, id)
      && forall n :: n in w.drains ==> DrainTrue(w, owner, n)
  {
    var w0 := HostStart(delivered);
    RunSeenAs(w0, w0, owner, es, id);
    StartInv(delivered, owner);
    RunKeepsInv(w0, owner, delivered, AllSeenAs(es));
    v := Run(w0, owner, AllSeenAs(es));
    var w := Run(w0, owner, es);
    forall n | n in w.drains ensures DrainTrue(w, owner, n) {
      assert DrainTrue(v, owner, n);
    }
  }

  lemma HeadIsUnrecorded(w: World, v: World, owner: string -> string, start: map<string, Row>, e: Event, id: string)
    requires Observed(w) == Observed(v) && Inv(v, owner, start) && Enabled(w, owner, e) && id in start
    ensures !LosesRecord(w, e, id)
  {
    assert CountsTrue(v, start, id);
    if Unseen(e) {
      assert v.drains == w.drains && DrainTrue(v, owner, e.n);
      assert w.drains[e.n].rest[0] in w.drains[e.n].rest;
    }
  }

  lemma {:induction false} RecordedIsNeverLost(
      w: World, v: World, owner: string -> string, start: map<string, Row>, es: seq<Event>, id: string)
    requires Observed(w) == Observed(v) && Inv(v, owner, start) && RunOk(w, owner, es) && id in start
    ensures LostRecords(w, owner, es, id) == 0
    decreases |es|
  {
    hide Step, Enabled, SeenAs, LosesRecord, Observed, Inv;
    if es != [] {
      var e := es[0];
      StepSeenAs(w, v, owner, e, id);
      StepKeepsInv(v, owner, start, SeenAs(e));
      RecordedIsNeverLost(Step(w, owner, e), Step(v, owner, SeenAs(e)), owner, start, es[1..], id);
      HeadIsUnrecorded(w, v, owner, start, e, id);
    }
  }

  /** Over every interleaving of polls and wakes in one host run, with any writes of the delivered table
      failing: a message is attempted at most three times and once more for each time it could not be
      given up, and never if an earlier run recorded it; it reaches the channel once for each lost record
      and once more if it is recorded; it is given up after exactly as many attempts; and what a drain has
      handled is recorded or has one or two attempts. */
  lemma AtMostOnce(delivered: map<string, Row>, owner: string -> string, es: seq<Event>, id: string)
    requires RunOk(HostStart(delivered), owner, es)
    ensures
      var w := Run(HostStart(delivered), owner, es);
      && Get(w.calls, id) <= 3 + Get(w.lostGiveUps, id)
      && (id in delivered ==> Get(w.calls, id) == Get(w.successes, id) == Get(w.lostGiveUps, id) == 0)
      && Get(w.successes, id) ==
           LostRecords(HostStart(delivered), owner, es, id) + (if RecordedHere(delivered, w.tables, id) then 1 else 0)
      && (LostRecords(HostStart(delivered), owner, es, id) == 0 ==> Get(w.successes, id) <= 1)
      && (id !in delivered && id in w.tables.delivered && w.tables.delivered[id].GivenUp? ==>
           Get(w.calls, id) == 3 + Get(w.lostGiveUps, id))
      && (forall n :: n in w.drains && id in w.drains[n].handled ==> Accounted(w.tables, id))
  {
    var w := Run(HostStart(delivered), owner, es);
    var v := RunsAreTrue(delivered, owner, es, id);
    assert CountsTrue(v, delivered, id);
    forall n | n in w.drains && id in w.drains[n].handled ensures Accounted(w.tables, id) {
      assert DrainTrue(w, owner, n);
    }
    if id in delivered {
      var w0 := HostStart(delivered);
      StartInv(delivered, owner);
      RecordedIsNeverLost(w0, w0, owner, delivered, es, id);
    }
  }

  /** If records are lost for messages in mayFail only, the run delivers this one at most once. */
  ghost predicate OnceWhileLosing(
    delivered: map<string, Row>, owner: string -> string, es: seq<Event>, mayFail: iset<string>, id: string)
  {
    RunOk(HostStart(delivered), owner, es) &&
    (forall x: string :: x !in mayFail ==> LostRecords(HostStart(delivered), owner, es, x) == 0)
    ==> Get(Run(HostStart(delivered), owner, es).successes, id) <= 1
  }

  function LostThenSent(sid: string, id: string): seq<Event> {
    [Poll(0, sid, [id]), Unrecorded(0), Finish(0), Poll(0, sid, [id]), Attempted(0, Resolved(None))]
  }

  lemma RunEnds(w: World, owner: string -> string)
    ensures RunOk(w, owner, []) && Run(w, owner, []) == w
    ensures forall x: string :: LostRecords(w, owner, [], x) == 0
  {
  }

  lemma RunFront(w: World, owner: string -> string, es: seq<Event>)
    requires es != [] && Enabled(w, owner, es[0])
    ensures RunOk(w, owner, es) <==> RunOk(Step(w, owner, es[0]), owner, es[1..])
    ensures RunOk(w, owner, es) ==> Run(w, owner, es) == Run(Step(w, owner, es[0]), owner, es[1..])
    ensures RunOk(w, owner, es) ==> forall x: string ::
      LostRecords(w, owner, es, x) ==
        LostRecords(Step(w, owner, es[0]), owner, es[1..], x) + (if LosesRecord(w, es[0], x) then 1 else 0)
  {
    hide Step, Enabled;
  }

  /** A run given by its worlds; only its second event loses a record. */
  lemma RunFive(owner: string -> string, es: seq<Event>, ws: seq<World>)
    requires |es| == 5 && |ws| == 6
    requires forall i :: 0 <= i < 5 ==> Enabled(ws[i], owner, es[i]) && Step(ws[i], owner, es[i]) == ws[i + 1]
    requires Enabled(ws[1], owner, es[1]) && forall i :: 0 <= i < 5 && i != 1 ==> !Unseen(es[i])
    ensures RunOk(ws[0], owner, es) && Run(ws[0], owner, es) == ws[5]
    ensures forall x: string :: LostRecords(ws[0], owner, es, x) == if LosesRecord(ws[1], es[1], x) then 1 else 0
  {
    hide Step, Enabled, RunOk, Run, LostRecords;
    RunEnds(ws[5], owner);
    assert es[4..][1..] == [] && es[3..][1..] == es[4..] && es[2..][1..] == es[3..] && es[1..][1..] == es[2..];
    RunFront(ws[4], owner, es[4..]);
    RunFront(ws[3], owner, es[3..]);
    RunFront(ws[2], owner, es[2..]);
    RunFront(ws[1], owner, es[1..]);
    RunFront(ws[0], owner, es);
  }

  /** The world with one message alone with the adapter, then resolved, then idle again. */
  function Sending(w: World, sid: string, id: string): World {
    w.(inflight := {sid}, drains := map[0 := Drain(sid, [], [id])], calls := w.calls[id := Get(w.calls, id) + 1])
  }

  function Sent(w: World, sid: string, id: string, recorded: Attempt): World {
    w.(tables := AfterAttempt(w.tables, id, recorded),
       drains := map[0 := Drain(sid, [id], [])],
       successes := w.successes[id := Get(w.successes, id) + 1])
  }

  function Idle(w: World): World {
    w.(inflight := {}, drains := map[])
  }

  lemma UndeliveredAlone(id: string, d: map<string, Row>)
    requires id !in d
    ensures Undelivered([id], d) == [id]
  {
    assert [id][..0] == [];
  }

  lemma PollSends(w: World, owner: string -> string, id: string)
    requires w.inflight == {} && w.drains == map[] && id !in w.tables.delivered
    ensures Enabled(w, owner, Poll(0, owner(id), [id]))
    ensures Step(w, owner, Poll(0, owner(id), [id])) == Sending(w, owner(id), id)
  {
    UndeliveredAlone(id, w.tables.delivered);
    hide Undelivered;
  }

  lemma AttemptSends(w: World, owner: string -> string, id: string)
    requires w.drains == map[0 := Drain(owner(id), [], [id])]
    ensures Enabled(w, owner, Attempted(0, Resolved(None)))
    ensures Step(w, owner, Attempted(0, Resolved(None))) == Sent(w, owner(id), id, Resolved(None))
  {
    hide AfterAttempt;
    assert [] + [id] == [id] && [id][1..] == [];
  }

  lemma AttemptIsLost(w: World, owner: string -> string, id: string)
    requires w.drains == map[0 := Drain(owner(id), [], [id])]
    ensures Enabled(w, owner, Unrecorded(0)) && Step(w, owner, Unrecorded(0)) == Sent(w, owner(id), id, Threw)
  {
    hide AfterAttempt;
    assert [] + [id] == [id] && [id][1..] == [];
  }

  lemma FinishIdles(w: World, owner: string -> string, id: string)
    requires w.drains == map[0 := Drain(owner(id), [id], [])] && w.inflight == {owner(id)}
    ensures Enabled(w, owner, Finish(0)) && Step(w, owner, Finish(0)) == Idle(w)
  {
    assert w.drains - {0} == map[] && w.inflight - {owner(id)} == {};
  }

  lemma LostOnce(delivered: map<string, Row>, id: string)
    ensures AfterAttempt(Tables(delivered, map[]), id, Threw) == Tables(delivered, map[id := 1])
  {
  }

  /** One lost record: the next poll sends the message again. */
  lemma FailedWriteDeliversTwice(delivered: map<string, Row>, owner: string -> string, id: string)
    requires id !in delivered
    ensures
      var w0, es := HostStart(delivered), LostThenSent(owner(id), id);
      && RunOk(w0, owner, es) && Get(Run(w0, owner, es).successes, id) == 2
      && forall x: string :: x != id ==> LostRecords(w0, owner, es, x) == 0
  {
    var sid, es := owner(id), LostThenSent(owner(id), id);
    var w0 := HostStart(delivered);
    var w1 := Sending(w0, sid, id);
    var w2 := Sent(w1, sid, id, Threw);
    var w3 := Idle(w2);
    var w4 := Sending(w3, sid, id);
    var w5 := Sent(w4, sid, id, Resolved(None));
    hide Step, Enabled, Undelivered, RunOk, Run, LostRecords, AfterAttempt;
    LostOnce(delivered, id);
    PollSends(w0, owner, id);
    AttemptIsLost(w1, owner, id);
    FinishIdles(w2, owner, id);
    PollSends(w3, owner, id);
    AttemptSends(w4, owner, id);
    RunFive(owner, es, [w0, w1, w2, w3, w4, w5]);
    assert es[1] == Unrecorded(0) && w1.drains[0].rest[0] == id;
  }

  /** Every run delivers a message at most once exactly if its own record cannot be lost, or an earlier
      run has written it. */
  lemma AtMostOnceIffRecorded(delivered: map<string, Row>, owner: string -> string, mayFail: iset<string>, id: string)
    ensures (forall es: seq<Event> :: OnceWhileLosing(delivered, owner, es, mayFail, id)) <==>
      id in delivered || id !in mayFail
  {
    hide RunOk, Run, LostRecords, HostStart;
    if id in delivered || id !in mayFail {
      forall es: seq<Event> ensures OnceWhileLosing(delivered, owner, es, mayFail, id) {
        if RunOk(HostStart(delivered), owner, es) {
          AtMostOnce(delivered, owner, es, id);
        }
      }
    } else {
      FailedWriteDeliversTwice(delivered, owner, id);
      assert !OnceWhileLosing(delivered, owner, LostThenSent(owner(id), id), mayFail, id);
    }
  }

  /** If given-up rows are lost for messages in mayFail only, the run attempts this one at most three times. */
  ghost predicate ThriceWhileLosing(
    delivered: map<string, Row>, owner: string -> string, es: seq<Event>, mayFail: iset<string>, id: string)
  {
    RunOk(HostStart(delivered), owner, es) &&
    (forall x: string :: x !in mayFail ==> Get(Run(HostStart(delivered), owner, es).lostGiveUps, x) == 0)
    ==> Get(Run(HostStart(delivered), owner, es).calls, id) <= 3
  }

  lemma {:induction false} RunChain(owner: string -> string, es: seq<Event>, ws: seq<World>)
    requires |ws| == |es| + 1
    requires forall i :: 0 <= i < |es| ==> Enabled(ws[i], owner, es[i]) && Step(ws[i], owner, es[i]) == ws[i + 1]
    ensures RunOk(ws[0], owner, es) && Run(ws[0], owner, es) == ws[|es|]
    decreases |es|
  {
    hide Step, Enabled;
    if es != [] {
      forall i | 0 <= i < |es[1..]|
        ensures Enabled(ws[1..][i], owner, es[1..][i]) && Step(ws[1..][i], owner, es[1..][i]) == ws[1..][i + 1]
      {
        assert Enabled(ws[i + 1], owner, es[i + 1]);
      }
      RunChain(owner, es[1..], ws[1..]);
      assert Step(ws[0], owner, es[0]) == ws[1];
    }
  }

  function Failed(w: World, sid: string, id: string): World {
    w.(tables := AfterAttempt(w.tables, id, Threw), drains := map[0 := Drain(sid, [id], [])])
  }

  function Aborted(w: World, id: string): World {
    Idle(w).(tables := AfterLostGiveUp(w.tables, id), lostGiveUps := w.lostGiveUps[id := Get(w.lostGiveUps, id) + 1])
  }

  lemma AttemptFails(w: World, owner: string -> string, id: string)
    requires w.drains == map[0 := Drain(owner(id), [], [id])]
    ensures Enabled(w, owner, Attempted(0, Threw)) && Step(w, owner, Attempted(0, Threw)) == Failed(w, owner(id), id)
  {
    hide AfterAttempt;
    assert [] + [id] == [id] && [id][1..] == [];
  }

  lemma GiveUpAborts(w: World, owner: string -> string, id: string)
    requires w.drains == map[0 := Drain(owner(id), [], [id])] && w.inflight == {owner(id)}
    requires AttemptsOf(w.tables, id) == 2
    ensures Enabled(w, owner, GiveUpLost(0, false)) && Step(w, owner, GiveUpLost(0, false)) == Aborted(w, id)
  {
    assert w.drains - {0} == map[] && w.inflight - {owner(id)} == {};
  }

  function FourTimes(sid: string, id: string): seq<Event> {
    [Poll(0, sid, [id]), Attempted(0, Threw), Finish(0), Poll(0, sid, [id]), Attempted(0, Threw), Finish(0),
     Poll(0, sid, [id]), GiveUpLost(0, false), Poll(0, sid, [id])]
  }

  lemma FailedTwice(delivered: map<string, Row>, id: string)
    requires id !in delivered
    ensures AfterAttempt(Tables(delivered, map[]), id, Threw) == Tables(delivered, map[id := 1])
    ensures AfterAttempt(Tables(delivered, map[id := 1]), id, Threw) == Tables(delivered, map[id := 2])
  {
  }

  /** Two failed attempts, then a third whose given-up row cannot be written: the next poll tries a fourth
      time. */
  lemma LostGiveUpTriesAgain(delivered: map<string, Row>, owner: string -> string, id: string)
    requires id !in delivered
    ensures
      var w0, es := HostStart(delivered), FourTimes(owner(id), id);
      && RunOk(w0, owner, es) && Get(Run(w0, owner, es).calls, id) == 4
      && forall x: string :: x != id ==> Get(Run(w0, owner, es).lostGiveUps, x) == 0
  {
    var sid, es := owner(id), FourTimes(owner(id), id);
    var w0 := HostStart(delivered);
    var w1 := Sending(w0, sid, id);
    var w2 := Failed(w1, sid, id);
    var w3 := Idle(w2);
    var w4 := Sending(w3, sid, id);
    var w5 := Failed(w4, sid, id);
    var w6 := Idle(w5);
    var w7 := Sending(w6, sid, id);
    var w8 := Aborted(w7, id);
    var w9 := Sending(w8, sid, id);
    hide Step, Enabled, AfterAttempt, RunOk, Run;
    FailedTwice(delivered, id);
    PollSends(w0, owner, id);
    AttemptFails(w1, owner, id);
    FinishIdles(w2, owner, id);
    PollSends(w3, owner, id);
    AttemptFails(w4, owner, id);
    FinishIdles(w5, owner, id);
    PollSends(w6, owner, id);
    GiveUpAborts(w7, owner, id);
    PollSends(w8, owner, id);
    RunChain(owner, es, [w0, w1, w2, w3, w4, w5, w6, w7, w8, w9]);
  }

  /** Every run attempts a message at most three times exactly if its own given-up row cannot be lost, or an
      earlier run has recorded it. */
  lemma AtMostThriceIffGivenUp(delivered: map<string, Row>, owner: string -> string, mayFail: iset<string>, id: string)
    ensures (forall es: seq<Event> :: ThriceWhileLosing(delivered, owner, es, mayFail, id)) <==>
      id in delivered || id !in mayFail
  {
    hide RunOk, Run, LostRecords, HostStart;
    if id in delivered || id !in mayFail {
      forall es: seq<Event> ensures ThriceWhileLosing(delivered, owner, es, mayFail, id) {
        if RunOk(HostStart(delivered), owner, es) {
          AtMostOnce(delivered, owner, es, id);
        }
      }
    } else {
      LostGiveUpTriesAgain(delivered, owner, id);
      assert !ThriceWhileLosing(delivered, owner, FourTimes(owner(id), id), mayFail, id);
    }
  }

  // -------------------------------------------------------- a drain's whole run

  /** The drain ends, by finishing or on a give-up that could not be written. */
  predicate Ends(e: Event, n: nat) {
    e == Finish(n) || (e.GiveUpLost? && e.n == n)
  }

  lemma {:induction false} RunConcat(w: World, owner: string -> string, a: seq<Event>, b: seq<Event>)
    requires RunOk(w, owner, a) && RunOk(Run(w, owner, a), owner, b)
    ensures RunOk(w, owner, a + b) && Run(w, owner, a + b) == Run(Run(w, owner, a), owner, b)
    decreases |a|
  {
    hide Step, Enabled;
    if a == [] {
      assert a + b == b;
    } else {
      assert (a + b)[1..] == a[1..] + b;
      RunConcat(Step(w, owner, a[0]), owner, a[1..], b);
    }
  }

  lemma StepKeepsList(w: World, owner: string -> string, e: Event, n: nat)
    requires Enabled(w, owner, e) && n in w.drains && !Ends(e, n)
    ensures n in Step(w, owner, e).drains
    ensures var d, d' := w.drains[n], Step(w, owner, e).drains[n];
      d'.sid == d.sid && d'.handled + d'.rest == d.handled + d.rest
  {
    hide Undelivered, AfterAttempt;
  }

  /** From its poll to its end a drain's list never changes, only how far it has come. */
  lemma {:induction false} DrainKeepsItsList(w: World, owner: string -> string, es: seq<Event>, n: nat)
    requires RunOk(w, owner, es) && n in w.drains && forall e :: e in es ==> !Ends(e, n)
    ensures n in Run(w, owner, es).drains
    ensures var d, d' := w.drains[n], Run(w, owner, es).drains[n];
      d'.sid == d.sid && d'.handled + d'.rest == d.handled + d.rest
    decreases |es|
  {
    hide Step, Enabled, Ends;
    if es != [] {
      StepKeepsList(w, owner, es[0], n);
      DrainKeepsItsList(Step(w, owner, es[0]), owner, es[1..], n);
    }
  }

  lemma ComesAfter(handled: seq<string>, rest: seq<string>, list: seq<string>, m: nat, n: nat)
    requires handled + rest == list && Distinct(list) && m < n < |list|
    requires list[n] in handled || (rest != [] && rest[0] == list[n])
    ensures list[m] in handled
  {
    if rest != [] && rest[0] == list[n] {
      assert list[|handled|] == list[n];
    } else {
      var k :| 0 <= k < |handled| && handled[k] == list[n];
      assert list[k] == list[n];
    }
    assert handled[m] == list[m];
  }

  lemma PollBegins(w: World, owner: string -> string, n: nat, sid: string, due: seq<string>)
    requires Enabled(w, owner, Poll(n, sid, due)) && sid !in w.inflight
    ensures Distinct(Undelivered(due, w.tables.delivered))
    ensures n in Step(w, owner, Poll(n, sid, due)).drains
    ensures Step(w, owner, Poll(n, sid, due)).drains[n] == Drain(sid, [], Undelivered(due, w.tables.delivered))
  {
    hide Undelivered;
    UndeliveredIsFilter(due, w.tables.delivered);
  }

  /** In every run a drain attempts its messages in the order in which they were due at its poll: once it
      has come to one of two that were unrecorded, it is done with the other if that was due first. */
  lemma AttemptsComeInOrder(
      w: World, owner: string -> string, n: nat, sid: string, due: seq<string>, during: seq<Event>, i: nat, j: nat)
    requires Enabled(w, owner, Poll(n, sid, due)) && sid !in w.inflight
    requires RunOk(Step(w, owner, Poll(n, sid, due)), owner, during) && forall e :: e in during ==> !Ends(e, n)
    requires i < j < |due| && due[i] !in w.tables.delivered && due[j] !in w.tables.delivered
    ensures var w' := Run(Step(w, owner, Poll(n, sid, due)), owner, during);
      && n in w'.drains
      && var d := w'.drains[n];
         due[j] in d.handled || (d.rest != [] && d.rest[0] == due[j]) ==> due[i] in d.handled
  {
    hide RunOk, Run, Undelivered, Ends, Step, Enabled, Distinct;
    var list := Undelivered(due, w.tables.delivered);
    var w1 := Step(w, owner, Poll(n, sid, due));
    PollBegins(w, owner, n, sid, due);
    assert [] + list == list;
    DrainKeepsItsList(w1, owner, during, n);
    var d := Run(w1, owner, during).drains[n];
    var a, b := UndeliveredKeepsOrder(due, w.tables.delivered, i, j);
    if due[j] in d.handled || (d.rest != [] && d.rest[0] == due[j]) {
      ComesAfter(d.handled, d.rest, list, a, b);
    }
  }

  /** In every run, failed writes included: when a drain that a poll started finishes, every message that
      was due and unrecorded at that poll is recorded or has one or two attempts. */
  lemma FinishedDrainsAreComplete(
      delivered: map<string, Row>, owner: string -> string, before: seq<Event>, n: nat, sid: string, due: seq<string>,
      during: seq<Event>, id: string)
    requires RunOk(HostStart(delivered), owner, before)
    requires var w := Run(HostStart(delivered), owner, before);
      Enabled(w, owner, Poll(n, sid, due)) && sid !in w.inflight && id in due && id !in w.tables.delivered
    requires var w := AfterPoll(Run(HostStart(delivered), owner, before), n, sid, due);
      && RunOk(w, owner, during) && (forall e :: e in during ==> !Ends(e, n))
      && Enabled(Run(w, owner, during), owner, Finish(n))
    ensures var w := AfterPoll(Run(HostStart(delivered), owner, before), n, sid, due);
      Accounted(Step(Run(w, owner, during), owner, Finish(n)).tables, id)
  {
    hide RunOk, Run, Undelivered, HostStart;
    var w0 := HostStart(delivered);
    var w := Run(w0, owner, before);
    var w1 := AfterPoll(w, n, sid, due);
    UndeliveredIsFilter(due, w.tables.delivered);
    assert w1.drains[n].handled + w1.drains[n].rest == Undelivered(due, w.tables.delivered);
    DrainKeepsItsList(w1, owner, during, n);
    var w2 := Run(w1, owner, during);
    var poll := [Poll(n, sid, due)];
    RunEnds(w1, owner);
    assert poll[1..] == [];
    RunFront(w, owner, poll);
    RunConcat(w, owner, poll, during);
    RunConcat(w0, owner, before, poll + during);
    var v := RunsAreTrue(delivered, owner, before + (poll + during), id);
    assert w2.drains[n].rest == [] && w2.drains[n].handled + [] == w2.drains[n].handled;
    assert DrainTrue(w2, owner, n);
  }

  lemma StepKeepsRows(w: World, owner: string -> string, e: Event, id: string)
    requires Enabled(w, owner, e) && id in w.tables.delivered
    ensures var d' := Step(w, owner, e).tables.delivered; id in d' && d'[id] == w.tables.delivered[id]
  {
  }

  /** A delivered row never changes once written, in any run, failing writes included. */
  lemma {:induction false} RowsNeverChange(w: World, owner: string -> string, es: seq<Event>, id: string)
    requires RunOk(w, owner, es) && id in w.tables.delivered
    ensures var d' := Run(w, owner, es).tables.delivered; id in d' && d'[id] == w.tables.delivered[id]
    decreases |es|
  {
    hide Step, Enabled;
    if es != [] {
      StepKeepsRows(w, owner, es[0], id);
      RowsNeverChange(Step(w, owner, es[0]), owner, es[1..], id);
    }
  }
}

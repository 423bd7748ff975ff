/** The host sweep (src/host-sweep.ts): when a running container is killed, and how messages left
    in processing are retried. */
module HostSweep {
  import opened Wrappers
  import opened SessionDb

  // ------------------------------------------------------------ kill or not

  const CLAIM_STUCK_MS := 60_000

  datatype ContainerState = ContainerState(currentTool: string, declaredTimeoutMs: Option<int>)

  /** claimedAt is None where the timestamp does not parse. */
  datatype Claim = Claim(messageId: string, claimedAt: Option<int>)

  datatype StuckDecision =
    | Ok
    | KillCeiling(heartbeatAgeMs: int, ceilingMs: int)
    | KillClaim(messageId: string, claimAgeMs: int, toleranceMs: int)

  function BashTimeoutMs(state: Option<ContainerState>): Option<int> {
    if state == None || state.value.currentTool != "Bash" then None else state.value.declaredTimeoutMs
  }

  function Max(a: int, b: int): int {
    if a >= b then a else b
  }

  function OrZero(o: Option<int>): int {
    if o == None then 0 else o.value
  }

  /** heartbeat 0 means that there is no heartbeat file. */
  predicate PastCeiling(now: int, heartbeat: int, ceiling: int) {
    heartbeat != 0 && ceiling > 0 && now - heartbeat > ceiling
  }

  predicate Stuck(c: Claim, now: int, heartbeat: int, tolerance: int) {
    c.claimedAt != None && now - c.claimedAt.value > tolerance && heartbeat <= c.claimedAt.value
  }

  predicate FirstStuck(claims: seq<Claim>, i: int, now: int, heartbeat: int, tolerance: int) {
    && 0 <= i < |claims| && Stuck(claims[i], now, heartbeat, tolerance)
    && forall j :: 0 <= j < i ==> !Stuck(claims[j], now, heartbeat, tolerance)
  }

  /** The two tests of a running container for a declared Bash timeout of bashMs (0 for none). */
  predicate Healthy(now: int, heartbeat: int, bashMs: int, claims: seq<Claim>, ceilingMs: int) {
    && !PastCeiling(now, heartbeat, Max(ceilingMs, bashMs))
    && forall c :: c in claims ==> !Stuck(c, now, heartbeat, Max(CLAIM_STUCK_MS, bashMs))
  }

  /** ok exactly for a healthy container; otherwise the ceiling, or the first stuck claim. */
  method DecideStuckAction(
      now: int, heartbeatMtimeMs: int, state: Option<ContainerState>, claims: seq<Claim>, absoluteCeilingMs: int)
    returns (d: StuckDecision)
    ensures
      var bashMs := OrZero(BashTimeoutMs(state));
      && (d.Ok? <==> Healthy(now, heartbeatMtimeMs, bashMs, claims, absoluteCeilingMs))
      && (d.KillCeiling? <==> PastCeiling(now, heartbeatMtimeMs, Max(absoluteCeilingMs, bashMs)))
      && (d.KillCeiling? ==>
           d.heartbeatAgeMs == now - heartbeatMtimeMs && d.ceilingMs == Max(absoluteCeilingMs, bashMs))
      && (d.KillClaim? ==> exists i ::
           && FirstStuck(claims, i, now, heartbeatMtimeMs, Max(CLAIM_STUCK_MS, bashMs))
           && d == KillClaim(claims[i].messageId, now - claims[i].claimedAt.value, Max(CLAIM_STUCK_MS, bashMs)))
    // A declared timeout counts while the tool is Bash, and only ever extends what is tolerated.
    ensures
      var declared :=
        if state != None && state.value.currentTool == "Bash" && state.value.declaredTimeoutMs != None
        then state.value.declaredTimeoutMs.value else 0;
      var ceiling := if declared > absoluteCeilingMs then declared else absoluteCeilingMs;
      var tolerance := if declared > 60_000 then declared else 60_000;
      && (d.KillCeiling? <==> heartbeatMtimeMs != 0 && ceiling > 0 && now - heartbeatMtimeMs > ceiling)
      && (d.KillCeiling? ==> d == KillCeiling(now - heartbeatMtimeMs, ceiling))
      && (!d.KillCeiling? ==> (d.Ok? <==> forall i :: 0 <= i < |claims| && claims[i].claimedAt != None ==>
           now - claims[i].claimedAt.value <= tolerance || heartbeatMtimeMs > claims[i].claimedAt.value))
      && (d.KillClaim? ==> exists i ::
           && 0 <= i < |claims| && claims[i].claimedAt != None
           && now - claims[i].claimedAt.value > tolerance && heartbeatMtimeMs <= claims[i].claimedAt.value
           && d == KillClaim(claims[i].messageId, now - claims[i].claimedAt.value, tolerance))
  {
    var declaredBashMs := BashTimeoutMs(state);
    if heartbeatMtimeMs != 0 {
      var ceiling := Max(absoluteCeilingMs, OrZero(declaredBashMs));
      if ceiling > 0 {
        var heartbeatAge := now - heartbeatMtimeMs;
        if heartbeatAge > ceiling {
          return KillCeiling(heartbeatAge, ceiling);
        }
      }
    }
    var tolerance := Max(CLAIM_STUCK_MS, OrZero(declaredBashMs));
    for i := 0 to |claims|
      invariant forall j :: 0 <= j < i ==> !Stuck(claims[j], now, heartbeatMtimeMs, tolerance)
    {
      var claim := claims[i];
      if claim.claimedAt != None {
        var claimAge := now - claim.claimedAt.value;
        if claimAge > tolerance && !(heartbeatMtimeMs > claim.claimedAt.value) {
          assert FirstStuck(claims, i, now, heartbeatMtimeMs, tolerance);
          return KillClaim(claim.messageId, claimAge, tolerance);
        }
      }
    }
    d := Ok;
  }

  /** A kill stays a kill as time passes. */
  lemma KillsPersist(now: int, later: int, heartbeat: int, bashMs: int, claims: seq<Claim>, ceilingMs: int)
    requires now <= later && !Healthy(now, heartbeat, bashMs, claims, ceilingMs)
    ensures !Healthy(later, heartbeat, bashMs, claims, ceilingMs)
  {
    if !PastCeiling(now, heartbeat, Max(ceilingMs, bashMs)) {
      var c :| c in claims && Stuck(c, now, heartbeat, Max(CLAIM_STUCK_MS, bashMs));
      assert Stuck(c, later, heartbeat, Max(CLAIM_STUCK_MS, bashMs));
    }
  }

  /** A later heartbeat keeps a healthy container healthy exactly when there was one before, or
      the new one passes the ceiling test; a first heartbeat is what arms the ceiling. */
  lemma LaterHeartbeat(now: int, heartbeat: int, heartbeat': int, bashMs: int, claims: seq<Claim>, ceilingMs: int)
    requires 0 <= heartbeat <= heartbeat' && Healthy(now, heartbeat, bashMs, claims, ceilingMs)
    ensures Healthy(now, heartbeat', bashMs, claims, ceilingMs) <==>
      heartbeat > 0 || !PastCeiling(now, heartbeat', Max(ceilingMs, bashMs))
  {
    forall c | c in claims ensures !Stuck(c, now, heartbeat', Max(CLAIM_STUCK_MS, bashMs)) {
      assert !Stuck(c, now, heartbeat, Max(CLAIM_STUCK_MS, bashMs));
    }
  }

  /** A larger declared timeout keeps a healthy container healthy exactly when a ceiling was in
      force already, or none applies now; declaring one is what switches the ceiling on. */
  lemma LargerTimeout(now: int, heartbeat: int, bashMs: int, bashMs': int, claims: seq<Claim>, ceilingMs: int)
    requires bashMs <= bashMs' && Healthy(now, heartbeat, bashMs, claims, ceilingMs)
    ensures Healthy(now, heartbeat, bashMs', claims, ceilingMs) <==>
      Max(ceilingMs, bashMs) > 0 || !PastCeiling(now, heartbeat, Max(ceilingMs, bashMs'))
  {
    forall c | c in claims ensures !Stuck(c, now, heartbeat, Max(CLAIM_STUCK_MS, bashMs')) {
      assert !Stuck(c, now, heartbeat, Max(CLAIM_STUCK_MS, bashMs));
    }
  }

  /** Both exceptions exist: a first heartbeat, and a first declared timeout, can cause a kill. */
  lemma CeilingCanBeArmed()
    ensures Healthy(200, 0, 0, [], 10) && !Healthy(200, 5, 0, [], 10)
    ensures Healthy(200, 5, 0, [], 0) && !Healthy(200, 5, 10, [], 0)
  {
  }

  // ------------------------------------------------------- retry with backoff

  const MAX_TRIES := 5

  function Pow2(n: nat): nat {
    if n == 0 then 1 else 2 * Pow2(n - 1)
  }

  /** floor(5000 * 2^tries / 1000) */
  function BackoffSec(tries: nat): nat {
    5000 * Pow2(tries) / 1000
  }

  /** What one sweep does to one row, claimed or not. */
  function ResetRow(r: MessageIn, claimed: bool, now: int): MessageIn {
    if !claimed || r.status != Pending || (r.processAfter != None && r.processAfter.value > now) then r
    else if r.tries >= MAX_TRIES then Edited(r, Fail)
    else Edited(r, Bump(BackoffSec(r.tries), now))
  }

  function ResetOne(t: Inbox, id: string, now: int): Inbox {
    match PendingRow(t, id)
    case None => t
    case Some(m) =>
      if m.processAfter != None && m.processAfter.value > now then t
      else if m.tries >= MAX_TRIES then UpdateById(t, m.id, Fail)
      else UpdateById(t, m.id, Bump(BackoffSec(m.tries), now))
  }

  function ResetAll(t: Inbox, claims: seq<string>, now: int): Inbox {
    if claims == [] then t else ResetOne(ResetAll(t, claims[..|claims| - 1], now), claims[|claims| - 1], now)
  }

  lemma ResetOnePointwise(t: Inbox, id: string, now: int)
    requires UniqueIds(t)
    ensures var u := ResetOne(t, id, now);
      && |u| == |t|
      && forall i :: 0 <= i < |t| ==> u[i] == ResetRow(t[i], t[i].id == id, now)
  {
    hide PendingRow, BackoffSec, Edited;
    if i: nat :| i < |t| && t[i].id == id {
      PendingRowIs(t, i);
      assert forall j :: 0 <= j < |t| && t[j].id == id ==> j == i;
    } else {
      NoPendingRow(t, id);
    }
  }

  lemma Pow2Positive(n: nat)
    ensures BackoffSec(n) == 5 * Pow2(n) >= 5
  {
  }

  /** A row just reset is left alone by a second reset at the same instant. */
  lemma ResetRowTwice(r: MessageIn, a: bool, b: bool, now: int)
    ensures ResetRow(ResetRow(r, a, now), b, now) == ResetRow(r, a || b, now)
    ensures ResetRow(r, a, now).id == r.id
  {
    Pow2Positive(r.tries);
  }

  lemma Unclaimed(r: MessageIn, now: int)
    ensures ResetRow(r, false, now) == r
  {
  }

  /** The loop treats each row once, by whether it is claimed, however often and in whatever
      order the claims come. */
  lemma {:induction false} ResetAllPointwise(t: Inbox, claims: seq<string>, now: int)
    requires UniqueIds(t)
    ensures var u := ResetAll(t, claims, now);
      && |u| == |t| && UniqueIds(u)
      && forall i :: 0 <= i < |t| ==> u[i] == ResetRow(t[i], t[i].id in claims, now)
  {
    hide ResetOne, ResetRow;
    if claims == [] {
      forall i | 0 <= i < |t| ensures t[i] == ResetRow(t[i], false, now) {
        Unclaimed(t[i], now);
      }
    } else {
      var init, last := claims[..|claims| - 1], claims[|claims| - 1];
      ResetAllPointwise(t, init, now);
      var u := ResetAll(t, init, now);
      ResetOnePointwise(u, last, now);
      forall i | 0 <= i < |t|
        ensures ResetOne(u, last, now)[i] == ResetRow(t[i], t[i].id in claims, now)
        ensures ResetOne(u, last, now)[i].id == t[i].id
      {
        ResetRowTwice(t[i], t[i].id in init, t[i].id == last, now);
        assert t[i].id in claims <==> t[i].id in init || t[i].id == last;
        ResetRowTwice(t[i], t[i].id in claims, false, now);
      }
    }
  }

  lemma Backoffs()
    ensures BackoffSec(0) == 5 && BackoffSec(1) == 10 && BackoffSec(2) == 20
    ensures BackoffSec(3) == 40 && BackoffSec(4) == 80
  {
    assert Pow2(0) == 1 && Pow2(1) == 2 && Pow2(2) == 4 && Pow2(3) == 8 && Pow2(4) == 16;
  }

  lemma ResetRowIs(r: MessageIn, claimed: bool, now: int)
    ensures ResetRow(r, claimed, now) ==
      if !claimed || r.status != Pending || (r.processAfter != None && r.processAfter.value > now) then r
      else if r.tries >= 5 then r.(status := Failed)
      else r.(tries := r.tries + 1, processAfter := Some((now / 1000 + [5, 10, 20, 40, 80][r.tries]) * 1000))
  {
    hide BackoffSec;
    Backoffs();
  }

  method ResetStuckProcessingRows(db: InboundDb, claims: seq<string>, now: int)
    modifies db
    ensures db.messagesIn == ResetAll(old(db.messagesIn), claims, now)
    // Claimed pending rows whose time has come: 5, 10, 20, 40, 80 seconds more, then given up.
    ensures UniqueIds(old(db.messagesIn)) ==>
      && |db.messagesIn| == |old(db.messagesIn)|
      && forall i :: 0 <= i < |db.messagesIn| ==>
           var r, r' := old(db.messagesIn)[i], db.messagesIn[i];
           r' ==
             if r.id !in claims || r.status != Pending || (r.processAfter != None && r.processAfter.value > now) then r
             else if r.tries >= 5 then r.(status := Failed)
             else r.(tries := r.tries + 1,
                     processAfter := Some((now / 1000 + [5, 10, 20, 40, 80][r.tries]) * 1000))
  {
    if UniqueIds(db.messagesIn) {
      ResetAllPointwise(db.messagesIn, claims, now);
      forall i | 0 <= i < |db.messagesIn| {
        ResetRowIs(db.messagesIn[i], db.messagesIn[i].id in claims, now);
      }
    }
    for n := 0 to |claims|
      invariant db.messagesIn == ResetAll(old(db.messagesIn), claims[..n], now)
    {
      assert claims[..n + 1][..n] == claims[..n];
      var msg := PendingRow(db.messagesIn, claims[n]);
      if msg != None && !(msg.value.processAfter != None && msg.value.processAfter.value > now) {
        if msg.value.tries >= MAX_TRIES {
          db.MarkMessageFailed(msg.value.id);
        } else {
          db.RetryWithBackoff(msg.value.id, BackoffSec(msg.value.tries), now);
        }
      }
    }
    assert claims[..|claims|] == claims;
  }

  /** A second reset at the same instant changes nothing, for any claims on rows claimed before, in any
      order and number. */
  lemma ResetIsIdempotent(t: Inbox, claims: seq<string>, again: seq<string>, now: int)
    requires UniqueIds(t) && forall id :: id in again ==> id in claims
    ensures ResetAll(ResetAll(t, claims, now), again, now) == ResetAll(t, claims, now)
  {
    hide ResetRow;
    var u := ResetAll(t, claims, now);
    ResetAllPointwise(t, claims, now);
    ResetAllPointwise(u, again, now);
    forall i | 0 <= i < |t| ensures ResetAll(u, again, now)[i] == u[i] {
      ResetRowTwice(t[i], t[i].id in claims, t[i].id in again, now);
      assert u[i].id == t[i].id;
    }
  }

  function SyncRow(r: MessageIn, done: bool): MessageIn {
    if done then Edited(r, Complete) else r
  }

  lemma {:induction false} SyncPointwise(t: Inbox, completed: seq<string>)
    ensures var u := Synced(t, completed);
      |u| == |t| && forall i :: 0 <= i < |t| ==> u[i] == SyncRow(t[i], t[i].id in completed)
    decreases |completed|
  {
    if completed != [] {
      var t1 := UpdateById(t, completed[0], Complete);
      SyncPointwise(t1, completed[1..]);
      assert forall i :: 0 <= i < |t| ==>
        (t[i].id in completed <==> t[i].id == completed[0] || t[i].id in completed[1..]);
    }
  }

  // -------------------------------------------------------------- whole runs

  /** What can happen to the table: acks are synced, claims are reset, rows arrive. */
  datatype Event =
    | Sync(at: int, completed: seq<string>)
    | Reset(at: int, claims: seq<string>)
    | Arrive(at: int, row: MessageIn)

  function TableStep(t: Inbox, e: Event): Inbox {
    match e
    case Sync(_, completed) => Synced(t, completed)
    case Reset(now, claims) => ResetAll(t, claims, now)
    case Arrive(_, row) => if HasId(t, row.id) then t else t + [row]
  }

  function TableRun(t: Inbox, es: seq<Event>): Inbox {
    if es == [] then t else TableStep(TableRun(t, es[..|es| - 1]), es[|es| - 1])
  }

  /** One row with its history: when it was bumped, and when it was given up. */
  datatype Track = Track(row: MessageIn, bumps: seq<int>, failedAt: Option<int>)

  function TrackStep(k: Track, e: Event): Track {
    match e
    case Sync(_, completed) => k.(row := SyncRow(k.row, k.row.id in completed))
    case Reset(now, claims) =>
      var r := ResetRow(k.row, k.row.id in claims, now);
      Track(r,
        if r.tries > k.row.tries then k.bumps + [now] else k.bumps,
        if r.status == Failed && k.row.status != Failed then Some(now) else k.failedAt)
    case Arrive(_, _) => k
  }

  function TrackRun(k: Track, es: seq<Event>): Track {
    if es == [] then k else TrackStep(TrackRun(k, es[..|es| - 1]), es[|es| - 1])
  }

  /** Events come in the order of their clock readings. */
  predicate InOrder(es: seq<Event>) {
    forall i, j :: 0 <= i < j < |es| ==> es[i].at <= es[j].at
  }

  lemma SyncKeepsId(r: MessageIn, done: bool)
    ensures SyncRow(r, done).id == r.id
  {
  }

  /** Every row of the table lives its own run. */
  lemma {:induction false} RowsRunAlone(t: Inbox, es: seq<Event>)
    requires UniqueIds(t)
    ensures var u := TableRun(t, es);
      && UniqueIds(u) && |u| >= |t|
      && forall i :: 0 <= i < |t| ==>
           u[i] == TrackRun(Track(t[i], [], None), es).row && u[i].id == t[i].id
  {
    hide ResetRow, SyncRow;
    if es != [] {
      var init, e := es[..|es| - 1], es[|es| - 1];
      RowsRunAlone(t, init);
      var u := TableRun(t, init);
      match e {
        case Sync(_, completed) =>
          SyncPointwise(u, completed);
          forall i | 0 <= i < |u| ensures SyncRow(u[i], u[i].id in completed).id == u[i].id {
            SyncKeepsId(u[i], u[i].id in completed);
          }
        case Reset(now, claims) =>
          ResetAllPointwise(u, claims, now);
          forall i | 0 <= i < |u| ensures ResetRow(u[i], u[i].id in claims, now).id == u[i].id {
            ResetRowTwice(u[i], u[i].id in claims, false, now);
          }
        case Arrive(_, _) =>
      }
    }
  }

  /** The whole seconds a row must wait from its first bump to bump k. */
  function WaitBefore(k: nat): nat {
    if k == 0 then 0 else WaitBefore(k - 1) + 5 * Pow2(k - 1)
  }

  ghost predicate TrackInv(k: Track, now: int) {
    && k.row.tries == |k.bumps| <= MAX_TRIES
    && (forall i :: 0 <= i < |k.bumps| ==>
         k.bumps[i] <= now && Seconds(k.bumps[i]) >= Seconds(k.bumps[0]) + WaitBefore(i))
    && (k.bumps != [] ==>
         k.row.processAfter == Some((Seconds(k.bumps[|k.bumps| - 1]) + 5 * Pow2(|k.bumps| - 1)) * 1000))
    && (k.row.status == Failed ==> k.failedAt != None)
    && (k.failedAt != None ==>
         |k.bumps| == MAX_TRIES && Seconds(k.failedAt.value) >= Seconds(k.bumps[0]) + WaitBefore(MAX_TRIES))
  }

  lemma WaitStep(k: nat)
    ensures WaitBefore(k + 1) == WaitBefore(k) + 5 * Pow2(k)
  {
  }

  lemma SecondsReach(ms: int, s: int)
    requires s * 1000 <= ms
    ensures s <= Seconds(ms)
  {
  }

  /** A row is only touched once the wait set by its last bump is over. */
  lemma TouchedIsDue(k: Track, claims: seq<string>, now: int, at: int)
    requires TrackInv(k, now) && ResetRow(k.row, k.row.id in claims, at) != k.row && k.bumps != []
    ensures Seconds(at) >= Seconds(k.bumps[0]) + WaitBefore(|k.bumps|)
  {
    hide Pow2, WaitBefore, Seconds;
    SecondsReach(at, Seconds(k.bumps[|k.bumps| - 1]) + 5 * Pow2(|k.bumps| - 1));
    WaitStep(|k.bumps| - 1);
  }

  lemma GiveUpKeepsInv(k: Track, claims: seq<string>, now: int, at: int)
    requires TrackInv(k, now) && now <= at
    requires ResetRow(k.row, k.row.id in claims, at) != k.row && k.row.tries >= MAX_TRIES
    ensures TrackInv(TrackStep(k, Reset(at, claims)), at)
  {
    hide Pow2, WaitBefore, Seconds;
    TouchedIsDue(k, claims, now, at);
  }

  lemma WaitZero()
    ensures WaitBefore(0) == 0
  {
  }

  lemma BumpKeepsInv(k: Track, claims: seq<string>, now: int, at: int)
    requires TrackInv(k, now) && now <= at
    requires ResetRow(k.row, k.row.id in claims, at) != k.row && k.row.tries < MAX_TRIES
    ensures TrackInv(TrackStep(k, Reset(at, claims)), at)
  {
    hide Pow2, WaitBefore, Seconds;
    Pow2Positive(k.row.tries);
    WaitZero();
    if k.bumps != [] {
      TouchedIsDue(k, claims, now, at);
    }
    var k' := TrackStep(k, Reset(at, claims));
    assert k'.bumps == k.bumps + [at];
  }

  lemma TrackStepKeepsInv(k: Track, e: Event, now: int)
    requires TrackInv(k, now) && now <= e.at
    ensures TrackInv(TrackStep(k, e), e.at)
  {
    hide Pow2, WaitBefore, ResetRow, Seconds;
    if e.Reset? {
      var r := ResetRow(k.row, k.row.id in e.claims, e.at);
      if r == k.row {
      } else if k.row.tries >= MAX_TRIES {
        GiveUpKeepsInv(k, e.claims, now, e.at);
      } else {
        BumpKeepsInv(k, e.claims, now, e.at);
      }
    }
  }

  /** A row that arrives pending and untried. */
  predicate Fresh(r: MessageIn) {
    r.status == Pending && r.tries == 0
  }

  lemma Untracked(r: MessageIn, now: int)
    requires Fresh(r)
    ensures TrackInv(Track(r, [], None), now)
  {
  }

  lemma {:induction false} TrackRunInv(r: MessageIn, es: seq<Event>)
    requires Fresh(r) && InOrder(es)
    ensures es == [] ==> TrackInv(TrackRun(Track(r, [], None), es), 0)
    ensures es != [] ==> TrackInv(TrackRun(Track(r, [], None), es), es[|es| - 1].at)
  {
    hide TrackStep, TrackInv;
    if es == [] {
      Untracked(r, 0);
    } else {
      var init, e := es[..|es| - 1], es[|es| - 1];
      TrackRunInv(r, init);
      if init == [] {
        Untracked(r, e.at);
        TrackStepKeepsInv(Track(r, [], None), e, e.at);
      } else {
        assert init[|init| - 1] == es[|es| - 2];
        TrackStepKeepsInv(TrackRun(Track(r, [], None), init), e, init[|init| - 1].at);
      }
    }
  }

  /** tries counts the bumps and never passes 5; a row becomes failed only with 5 tries, and after
      the first bump not before the 155th second boundary: 5 + 10 + 20 + 40 + 80. */
  lemma RetryBudget(r: MessageIn, es: seq<Event>)
    requires Fresh(r) && InOrder(es)
    ensures
      var k := TrackRun(Track(r, [], None), es);
      && k.row.tries == |k.bumps| <= 5
      && (k.row.status == Failed ==> k.failedAt != None)
      && (k.failedAt != None ==>
           && k.row.tries == 5
           && Seconds(k.failedAt.value) - Seconds(k.bumps[0]) >= 155
           && k.failedAt.value - k.bumps[0] >= 155_000 - k.bumps[0] % 1000)
  {
    TrackRunInv(r, es);
    assert WaitBefore(5) == 155;
  }

  /** The earliest schedule after a first bump at b. */
  function Tightest(id: string, b: int): seq<Event> {
    var s := Seconds(b);
    [Reset(b, [id]), Reset((s + 5) * 1000, [id]), Reset((s + 15) * 1000, [id]),
     Reset((s + 35) * 1000, [id]), Reset((s + 75) * 1000, [id]), Reset((s + 155) * 1000, [id])]
  }

  lemma TrackSnoc(k: Track, es: seq<Event>, e: Event)
    ensures TrackRun(k, es + [e]) == TrackStep(TrackRun(k, es), e)
  {
    hide TrackStep;
    assert (es + [e])[..|es + [e]| - 1] == es;
  }

  lemma TrackStart(k: Track)
    ensures TrackRun(k, []) == k
  {
  }

  lemma RunSix(k: Track, es: seq<Event>)
    requires |es| == 6
    ensures TrackRun(k, es) == TrackStep(TrackStep(TrackStep(TrackStep(TrackStep(TrackStep(
      k, es[0]), es[1]), es[2]), es[3]), es[4]), es[5])
  {
    hide TrackRun, TrackStep;
    TrackStart(k);
    forall i | 0 <= i < 6 ensures TrackRun(k, es[..i + 1]) == TrackStep(TrackRun(k, es[..i]), es[i]) {
      TrackSnoc(k, es[..i], es[i]);
      assert es[..i + 1] == es[..i] + [es[i]];
    }
    assert es[..0] == [] && es[..6] == es;
  }

  lemma WholeSecond(s: int)
    ensures Seconds(s * 1000) == s
  {
  }

  lemma SecondOf(ms: int)
    ensures Seconds(ms) * 1000 == ms - ms % 1000
  {
  }

  /** A claimed pending row that is due and not out of tries is bumped. */
  lemma BumpStep(k: Track, at: int) returns (bumped: Track)
    requires k.row.status == Pending && k.row.tries < MAX_TRIES
    requires k.row.processAfter == None || k.row.processAfter.value <= at
    ensures bumped == TrackStep(k, Reset(at, [k.row.id])) == Track(
      k.row.(tries := k.row.tries + 1, processAfter := Some((Seconds(at) + BackoffSec(k.row.tries)) * 1000)),
      k.bumps + [at],
      k.failedAt)
  {
    hide BackoffSec, Seconds;
    bumped := TrackStep(k, Reset(at, [k.row.id]));
  }

  /** Out of tries, it is given up. */
  lemma GiveUpStep(k: Track, at: int)
    requires k.row.status == Pending && k.row.tries >= MAX_TRIES
    requires k.row.processAfter == None || k.row.processAfter.value <= at
    ensures TrackStep(k, Reset(at, [k.row.id])) == Track(k.row.(status := Failed), k.bumps, Some(at))
  {
  }

  lemma EarliestInOrder(id: string, b: int)
    ensures InOrder(Tightest(id, b))
  {
  }

  /** The bound is reached for every b: sweeps on the second boundaries fail the row after exactly
      155 s less the part of a second at which the first bump came. */
  lemma RetryBudgetIsTight(r: MessageIn, b: int)
    requires Fresh(r) && r.processAfter == None
    ensures
      var k := TrackRun(Track(r, [], None), Tightest(r.id, b));
      && InOrder(Tightest(r.id, b))
      && k.row.status == Failed && |k.bumps| == 5 && k.bumps[0] == b
      && k.failedAt == Some(b + 155_000 - b % 1000)
  {
    hide TrackRun, TrackStep, InOrder, Seconds, BackoffSec;
    var s, es := Seconds(b), Tightest(r.id, b);
    EarliestInOrder(r.id, b);
    RunSix(Track(r, [], None), es);
    Backoffs();
    WholeSecond(s + 5);
    WholeSecond(s + 15);
    WholeSecond(s + 35);
    WholeSecond(s + 75);
    SecondOf(b);
    var k1 := BumpStep(Track(r, [], None), b);
    var k2 := BumpStep(k1, (s + 5) * 1000);
    var k3 := BumpStep(k2, (s + 15) * 1000);
    var k4 := BumpStep(k3, (s + 35) * 1000);
    var k5 := BumpStep(k4, (s + 75) * 1000);
    GiveUpStep(k5, (s + 155) * 1000);
  }

  /** If its first bump came at b and it was given up, then at least 155 s later. */
  predicate FullBudget(k: Track, b: int) {
    k.bumps != [] && k.bumps[0] == b && k.failedAt != None ==> k.failedAt.value - b >= 155_000
  }

  /** Every run that starts with a bump at b waits at least 155 s before it gives up exactly if b
      falls on a whole second. */
  lemma FullBudgetIffWholeSecond(r: MessageIn, b: int)
    requires Fresh(r) && r.processAfter == None
    ensures b % 1000 == 0 <==> forall es: seq<Event> :: InOrder(es) ==> FullBudget(TrackRun(Track(r, [], None), es), b)
  {
    hide TrackRun, InOrder, Tightest;
    forall es: seq<Event> | b % 1000 == 0 && InOrder(es)
      ensures FullBudget(TrackRun(Track(r, [], None), es), b)
    {
      RetryBudget(r, es);
    }
    RetryBudgetIsTight(r, b);
  }

  /** completed is absorbing, tries never shrinks, and a failed row is never pending again. */
  lemma {:induction false} CompletedIsAbsorbing(k: Track, es: seq<Event>)
    ensures TrackRun(k, es).row.tries >= k.row.tries
    ensures k.row.status == Completed ==> TrackRun(k, es).row == k.row
    ensures k.row.status == Failed ==>
      TrackRun(k, es).row.status == Failed || TrackRun(k, es).row.status == Completed
  {
    if es != [] {
      CompletedIsAbsorbing(k, es[..|es| - 1]);
    }
  }

  predicate AckedIn(e: Event, id: string) {
    e.Sync? && id in e.completed
  }

  /** A row becomes completed exactly if some sync lists it, whatever happened before: failed is not
      final, a late acknowledgement completes a row that was given up. */
  lemma {:induction false} CompletedIffAcked(k: Track, es: seq<Event>)
    requires k.row.status != Completed
    ensures TrackRun(k, es).row.id == k.row.id
    ensures TrackRun(k, es).row.status == Completed <==> exists n :: 0 <= n < |es| && AckedIn(es[n], k.row.id)
  {
    hide Pow2, BackoffSec;
    if es != [] {
      var init, e := es[..|es| - 1], es[|es| - 1];
      CompletedIffAcked(k, init);
      assert forall n :: 0 <= n < |init| ==> es[n] == init[n];
      if AckedIn(e, k.row.id) {
        assert AckedIn(es[|es| - 1], k.row.id);
      }
    }
  }

  // ------------------------------------------------------------- the sweep

  /** What one sweep reads from outbound.db.  The container may write between two reads, so the claims
      are those of the kill decision and those of the reset. */
  datatype Outbound = Outbound(
    completed: seq<string>, state: Option<ContainerState>, judged: seq<Claim>, claimed: seq<Claim>)

  function AfterAcks(t: Inbox, out: Option<Outbound>): Inbox {
    if out == None then t else Synced(t, out.value.completed)
  }

  function ClaimIds(claims: seq<Claim>): seq<string> {
    seq(|claims|, i requires 0 <= i < |claims| => claims[i].messageId)
  }

  /** How an awaited wake leaves the session. */
  datatype Woken = Runs | DoesNotRun | WakeThrew

  lemma DueIffCounted(t: Inbox, now: int)
    ensures CountDue(t, now) > 0 <==> exists i :: 0 <= i < |t| && IsDue(t[i], now)
  {
    hide IsDue;
    CountDueCounts(t, now);
    var due := set i: nat | i < |t| && IsDue(t[i], now);
    if CountDue(t, now) > 0 {
      var i :| i in due;
    } else {
      assert due == {};
      forall i | 0 <= i < |t| ensures !IsDue(t[i], now) {
        assert i !in due;
      }
    }
  }

  lemma AckedRows(t: Inbox, out: Option<Outbound>)
    ensures |AfterAcks(t, out)| == |t|
    ensures forall i :: 0 <= i < |t| ==>
      AfterAcks(t, out)[i] ==
        if out != None && t[i].id in out.value.completed then t[i].(status := Completed) else t[i]
  {
    if out != None {
      SyncedRows(t, out.value.completed);
    }
  }

  lemma ClaimIdsAre(claims: seq<Claim>, id: string)
    ensures id in ClaimIds(claims) <==> exists c :: c in claims && c.messageId == id
  {
    if c :| c in claims && c.messageId == id {
      var i :| 0 <= i < |claims| && claims[i] == c;
      assert ClaimIds(claims)[i] == id;
    }
  }

  /** One row after a sweep: done if acknowledged; retried or given up if it is left behind, pending, and
      not put off already. */
  function SweptRow(r: MessageIn, acked: bool, left: bool, now: int): MessageIn {
    if acked then r.(status := Completed)
    else if !left || r.status != Pending || (r.processAfter != None && r.processAfter.value > now) then r
    else if r.tries >= 5 then r.(status := Failed)
    else r.(tries := r.tries + 1, processAfter := Some((now / 1000 + [5, 10, 20, 40, 80][r.tries]) * 1000))
  }

  lemma SweptDue(t: Inbox, out: Option<Outbound>, now: int)
    ensures CountDue(AfterAcks(t, out), now) > 0 <==> exists i ::
      && 0 <= i < |t| && t[i].status == Pending && t[i].trigger && !(out != None && t[i].id in out.value.completed)
      && (t[i].processAfter == None || t[i].processAfter.value / 1000 <= now / 1000)
  {
    hide AfterAcks, CountDue;
    AckedRows(t, out);
    DueIffCounted(AfterAcks(t, out), now);
  }

  /** The table after a sweep, row by row; the claimed rows are left behind or not. */
  ghost predicate Swept(t: Inbox, u: Inbox, out: Option<Outbound>, left: bool, now: int) {
    && |u| == |t|
    && forall i :: 0 <= i < |t| ==>
         u[i] == SweptRow(
           t[i], out != None && t[i].id in out.value.completed,
           out != None && left && exists c :: c in out.value.claimed && c.messageId == t[i].id, now)
  }

  lemma SyncedOnly(t: Inbox, out: Option<Outbound>, now: int)
    ensures Swept(t, AfterAcks(t, out), out, false, now)
  {
    hide AfterAcks;
    AckedRows(t, out);
  }

  lemma LeftWithoutOutbox(t: Inbox, u: Inbox, now: int)
    ensures Swept(t, u, None, true, now) <==> Swept(t, u, None, false, now)
  {
  }

  lemma ResetRows(t: Inbox, out: Outbound, now: int)
    requires UniqueIds(t)
    ensures Swept(t, ResetAll(AfterAcks(t, Some(out)), ClaimIds(out.claimed), now), Some(out), true, now)
  {
    hide AfterAcks, ResetAll, ResetRow;
    var acked := AfterAcks(t, Some(out));
    AckedRows(t, Some(out));
    ResetAllPointwise(acked, ClaimIds(out.claimed), now);
    forall i | 0 <= i < |t|
      ensures ResetRow(acked[i], acked[i].id in ClaimIds(out.claimed), now) ==
        SweptRow(t[i], t[i].id in out.completed, exists c :: c in out.claimed && c.messageId == t[i].id, now)
    {
      ClaimIdsAre(out.claimed, t[i].id);
      ResetRowIs(acked[i], acked[i].id in ClaimIds(out.claimed), now);
    }
  }

  /** Judges a running container; one that is killed leaves its claims to the reset. */
  method EnforceRunningContainerSla(
      db: InboundDb, out: Outbound, heartbeatMtimeMs: int, absoluteCeilingMs: int, judgedAt: int, resetAt: int)
    returns (killed: bool)
    modifies db
    ensures killed <==>
      !Healthy(judgedAt, heartbeatMtimeMs, OrZero(BashTimeoutMs(out.state)), out.judged, absoluteCeilingMs)
    ensures db.messagesIn ==
      if killed then ResetAll(old(db.messagesIn), ClaimIds(out.claimed), resetAt) else old(db.messagesIn)
  {
    hide ResetAll, Healthy;
    killed := false;
    var d := DecideStuckAction(judgedAt, heartbeatMtimeMs, out.state, out.judged, absoluteCeilingMs);
    if !d.Ok? {
      killed := true;
      ResetStuckProcessingRows(db, ClaimIds(out.claimed), resetAt);
    }
  }

  /** One sweep of a session: sync acks, wake for due work, then judge or clean up; a wake that throws ends
      it.  out is None while there is no outbound.db; running says whether a container runs at the start,
      woken how a wake would end; the clock is read for the due count, the decision and the reset. */
  method SweepSession(
      db: InboundDb, out: Option<Outbound>, heartbeatMtimeMs: int, absoluteCeilingMs: int,
      running: bool, woken: Woken, countedAt: int, judgedAt: int, resetAt: int)
    returns (wakeCalled: bool, killed: bool, threw: bool)
    modifies db
    ensures wakeCalled <==> !running && CountDue(AfterAcks(old(db.messagesIn), out), countedAt) > 0
    ensures threw <==> wakeCalled && woken == WakeThrew
    ensures
      var alive := running || (wakeCalled && woken == Runs);
      var acked := AfterAcks(old(db.messagesIn), out);
      if threw || out == None then !killed && db.messagesIn == acked else
      var healthy := Healthy(
        judgedAt, heartbeatMtimeMs, OrZero(BashTimeoutMs(out.value.state)), out.value.judged, absoluteCeilingMs);
      && (killed <==> alive && !healthy)
      && db.messagesIn == if alive && healthy then acked else ResetAll(acked, ClaimIds(out.value.claimed), resetAt)
    // It wakes exactly for a row that acks leave pending, that triggers and whose time has come.
    ensures wakeCalled <==> !running && exists i ::
      && 0 <= i < |old(db.messagesIn)| && old(db.messagesIn)[i].status == Pending && old(db.messagesIn)[i].trigger
      && !(out != None && old(db.messagesIn)[i].id in out.value.completed)
      && (old(db.messagesIn)[i].processAfter == None ||
           old(db.messagesIn)[i].processAfter.value / 1000 <= countedAt / 1000)
    // Rows are left behind exactly if they are claimed and no container runs, or none any longer.
    ensures UniqueIds(old(db.messagesIn)) ==>
      var left := !threw && (killed || !(running || (wakeCalled && woken == Runs)));
      Swept(old(db.messagesIn), db.messagesIn, out, left, resetAt)
  {
    SweptDue(db.messagesIn, out, countedAt);
    SyncedOnly(db.messagesIn, out, resetAt);
    if out == None {
      LeftWithoutOutbox(db.messagesIn, db.messagesIn, resetAt);
    } else if UniqueIds(db.messagesIn) {
      ResetRows(db.messagesIn, out.value, resetAt);
    }
    hide Swept, ResetAll, CountDue, Healthy, BashTimeoutMs, OrZero, UniqueIds, ClaimIds, Synced;
    if out != None {
      db.SyncProcessingAcks(out.value.completed);
    }
    wakeCalled, killed, threw := false, false, false;
    var dueCount := CountDue(db.messagesIn, countedAt);
    var alive := running;
    if dueCount > 0 && !running {
      wakeCalled := true;
      if woken == WakeThrew {
        threw := true;
        return;
      }
      alive := woken == Runs;
    }
    if alive && out != None {
      killed := EnforceRunningContainerSla(db, out.value, heartbeatMtimeMs, absoluteCeilingMs, judgedAt, resetAt);
    }
    if !alive && out != None {
      ResetStuckProcessingRows(db, ClaimIds(out.value.claimed), resetAt);
    }
  }

  /** Because acks are synced first, finished work is never bumped or given up by the same sweep,
      even if its claim is still listed. */
  lemma FinishedWorkIsNotRetried(t: Inbox, completed: seq<string>, claims: seq<string>, now: int, i: nat)
    requires UniqueIds(t) && i < |t| && t[i].id in completed
    ensures var u := ResetAll(Synced(t, completed), claims, now);
      |u| == |t| && u[i] == t[i].(status := Completed)
  {
    SyncPointwise(t, completed);
    var s := Synced(t, completed);
    assert UniqueIds(s) by {
      forall a, b | 0 <= a < b < |s| ensures s[a].id != s[b].id {
        SyncKeepsId(t[a], t[a].id in completed);
        SyncKeepsId(t[b], t[b].id in completed);
      }
    }
    ResetAllPointwise(s, claims, now);
  }
}

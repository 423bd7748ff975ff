/** Waking and exiting session containers (src/container-runner.ts): the three maps, one step per
    synchronous section, and every interleaving of wakes, spawns, settling promises and exits. */
module ContainerRunner {

  const MIN_RESPAWN_INTERVAL_MS := 5000

  /** A spawn is named by the number of the wake that began it; so is the process it starts. */
  type Spawn = nat

  datatype Outcome = AlreadyRunning | JoinedInFlight | Deferred | Started

  datatype Maps = Maps(active: map<string, Spawn>, wakes: map<string, Spawn>, lastExit: map<string, int>)

  /** Zero counts as no exit: the source tests the timestamp for truth. */
  predicate ExitedRecently(lastExit: map<string, int>, sid: string, now: int) {
    sid in lastExit && lastExit[sid] != 0 && now - lastExit[sid] < MIN_RESPAWN_INTERVAL_MS
  }

  function WakeOutcome(m: Maps, sid: string, now: int): Outcome {
    if sid in m.active then AlreadyRunning
    else if sid in m.wakes then JoinedInFlight
    else if ExitedRecently(m.lastExit, sid, now) then Deferred
    else Started
  }

  class ContainerRunner {
    var activeContainers: map<string, Spawn>
    var wakePromises: map<string, Spawn>
    var lastExitMs: map<string, int>

    ghost function Now(): Maps
      reads this
    {
      Maps(activeContainers, wakePromises, lastExitMs)
    }

    constructor ()
      ensures Now() == Maps(map[], map[], map[])
    {
      activeContainers, wakePromises, lastExitMs := map[], map[], map[];
    }

    /** Runs up to the first await of the spawn it begins. */
    method WakeContainer(sid: string, now: int, spawn: Spawn) returns (o: Outcome)
      modifies this
      ensures o == WakeOutcome(old(Now()), sid, now)
      ensures o == AlreadyRunning <==> sid in old(activeContainers)
      ensures o == JoinedInFlight <==> sid !in old(activeContainers) && sid in old(wakePromises)
      ensures o == Deferred <==>
        && sid !in old(activeContainers) && sid !in old(wakePromises)
        && sid in old(lastExitMs) && old(lastExitMs[sid]) != 0 && now - old(lastExitMs[sid]) < 5000
      ensures Now() == if o == Started then old(Now()).(wakes := old(wakePromises)[sid := spawn]) else old(Now())
    {
      if sid in activeContainers {
        return AlreadyRunning;
      }
      if sid in wakePromises {
        return JoinedInFlight;
      }
      if sid in lastExitMs && lastExitMs[sid] != 0 && now - lastExitMs[sid] < MIN_RESPAWN_INTERVAL_MS {
        return Deferred;
      }
      wakePromises := wakePromises[sid := spawn];
      o := Started;
    }

    /** The end of spawnContainer: the process exists and is recorded. */
    method ProcessStarted(sid: string, spawn: Spawn)
      modifies this
      ensures Now() == old(Now()).(active := old(activeContainers)[sid := spawn])
    {
      activeContainers := activeContainers[sid := spawn];
    }

    /** The finally handler of the wake promise. */
    method WakeSettled(sid: string)
      modifies this
      ensures Now() == old(Now()).(wakes := old(wakePromises) - {sid})
    {
      wakePromises := wakePromises - {sid};
    }

    /** The close handler of a process. */
    method ContainerExited(sid: string, now: int)
      modifies this
      ensures Now() == Maps(old(activeContainers) - {sid}, old(wakePromises), old(lastExitMs)[sid := now])
    {
      activeContainers := activeContainers - {sid};
      lastExitMs := lastExitMs[sid := now];
    }
  }

  // -------------------------------------------------------------- whole runs

  datatype Entry = Start(at: int) | Exit(at: int)

  /** The maps, what really runs, and each session's history of starts and exits.  A wake is in
      setup until its process starts or its setup fails, then settling until its promise is
      removed. */
  datatype World = World(
    maps: Maps,
    setups: map<Spawn, string>,
    settling: map<Spawn, string>,
    live: map<Spawn, string>,
    log: map<string, seq<Entry>>,
    next: Spawn,
    now: int)

  datatype Event =
    | Wake(at: int, sid: string)
    | Spawned(at: int, spawn: Spawn)
    | SetupFailed(at: int, spawn: Spawn)
    | Settled(at: int, spawn: Spawn)
    | Exited(at: int, spawn: Spawn)

  predicate Enabled(w: World, e: Event) {
    && e.at >= w.now
    && match e
       case Wake(_, _) => true
       case Spawned(_, p) => p in w.setups
       case SetupFailed(_, p) => p in w.setups
       case Settled(_, p) => p in w.settling
       case Exited(_, p) => p in w.live
  }

  function LogOf(log: map<string, seq<Entry>>, sid: string): seq<Entry> {
    if sid in log then log[sid] else []
  }

  function AfterWake(w: World, at: int, sid: string): World {
    if WakeOutcome(w.maps, sid, at) == Started then
      w.(maps := w.maps.(wakes := w.maps.wakes[sid := w.next]),
         setups := w.setups[w.next := sid],
         next := w.next + 1,
         now := at)
    else w.(now := at)
  }

  function AfterSpawned(w: World, at: int, p: Spawn): World
    requires p in w.setups
  {
    var sid := w.setups[p];
    w.(maps := w.maps.(active := w.maps.active[sid := p]),
       setups := w.setups - {p},
       settling := w.settling[p := sid],
       live := w.live[p := sid],
       log := w.log[sid := LogOf(w.log, sid) + [Start(at)]],
       now := at)
  }

  function AfterSetupFailed(w: World, at: int, p: Spawn): World
    requires p in w.setups
  {
    w.(setups := w.setups - {p}, settling := w.settling[p := w.setups[p]], now := at)
  }

  function AfterSettled(w: World, at: int, p: Spawn): World
    requires p in w.settling
  {
    w.(maps := w.maps.(wakes := w.maps.wakes - {w.settling[p]}), settling := w.settling - {p}, now := at)
  }

  function AfterExited(w: World, at: int, p: Spawn): World
    requires p in w.live
  {
    var sid := w.live[p];
    w.(maps := w.maps.(active := w.maps.active - {sid}, lastExit := w.maps.lastExit[sid := at]),
       live := w.live - {p},
       log := w.log[sid := LogOf(w.log, sid) + [Exit(at)]],
       now := at)
  }

  function Step(w: World, e: Event): World
    requires Enabled(w, e)
  {
    match e
    case Wake(at, sid) => AfterWake(w, at, sid)
    case Spawned(at, p) => AfterSpawned(w, at, p)
    case SetupFailed(at, p) => AfterSetupFailed(w, at, p)
    case Settled(at, p) => AfterSettled(w, at, p)
    case Exited(at, p) => AfterExited(w, at, p)
  }

  predicate RunOk(w: World, es: seq<Event>)
    decreases |es|
  {
    es == [] || (Enabled(w, es[0]) && RunOk(Step(w, es[0]), es[1..]))
  }

  function Run(w: World, es: seq<Event>): World
    requires RunOk(w, es)
    decreases |es|
  {
    if es == [] then w else Run(Step(w, es[0]), es[1..])
  }

  /** Nothing runs at host start; clock readings are positive. */
  function Initial(start: int): World {
    World(Maps(map[], map[], map[]), map[], map[], map[], map[], 0, start)
  }

  /** Starts and exits alternate, and a start waits out the interval after the exit before it. */
  ghost predicate Throttled(log: seq<Entry>) {
    && (forall i :: 0 <= i < |log| ==> (log[i].Start? <==> i % 2 == 0))
    && (forall i :: 0 <= i < |log| - 1 ==>
         log[i].at + (if log[i].Exit? then MIN_RESPAWN_INTERVAL_MS else 0) <= log[i + 1].at)
  }

  ghost predicate SetupsTrue(w: World) {
    forall p :: p in w.setups ==>
      && p < w.next && p !in w.settling && p !in w.live
      && w.setups[p] in w.maps.wakes && w.maps.wakes[w.setups[p]] == p && w.setups[p] !in w.maps.active
  }

  ghost predicate SettlingTrue(w: World) {
    forall p :: p in w.settling ==>
      p < w.next && w.settling[p] in w.maps.wakes && w.maps.wakes[w.settling[p]] == p
  }

  ghost predicate LiveTrue(w: World) {
    forall p :: p in w.live ==>
      p < w.next && w.live[p] in w.maps.active && w.maps.active[w.live[p]] == p
  }

  ghost predicate WakesTrue(w: World) {
    forall sid :: sid in w.maps.wakes ==>
      var p := w.maps.wakes[sid];
      (p in w.setups && w.setups[p] == sid) || (p in w.settling && w.settling[p] == sid)
  }

  ghost predicate ActiveTrue(w: World) {
    forall sid :: sid in w.maps.active ==>
      && w.maps.active[sid] in w.live && w.live[w.maps.active[sid]] == sid
      && (sid in w.maps.wakes ==> w.maps.active[sid] == w.maps.wakes[sid])
  }

  /** Wakes in flight and containers that run are exactly what the maps say. */
  ghost predicate MapsAreTrue(w: World) {
    SetupsTrue(w) && SettlingTrue(w) && LiveTrue(w) && WakesTrue(w) && ActiveTrue(w)
  }

  /** A session's log ends in a start exactly while its container runs, and otherwise in the
      exit that lastExit records. */
  ghost predicate LogTrue(w: World, sid: string) {
    var log := LogOf(w.log, sid);
    && Throttled(log)
    && (sid in w.maps.active <==> |log| % 2 == 1)
    && (sid in w.maps.lastExit ==> log != [])
    && (log != [] ==> log[|log| - 1].at <= w.now)
    && (log != [] && |log| % 2 == 0 ==> sid in w.maps.lastExit && w.maps.lastExit[sid] == log[|log| - 1].at)
  }

  ghost predicate HistoryIsTrue(w: World) {
    && w.now > 0
    && (forall sid: string :: LogTrue(w, sid))
    && (forall sid :: sid in w.maps.lastExit ==> 0 < w.maps.lastExit[sid] <= w.now)
    && (forall p :: p in w.setups && w.setups[p] in w.maps.lastExit ==>
         w.maps.lastExit[w.setups[p]] + MIN_RESPAWN_INTERVAL_MS <= w.now)
  }

  lemma BegunKeepsMaps(w: World, w': World, sid: string)
    requires MapsAreTrue(w) && sid !in w.maps.active && sid !in w.maps.wakes
    requires w'.maps == w.maps.(wakes := w.maps.wakes[sid := w.next]) && w'.setups == w.setups[w.next := sid]
    requires w'.settling == w.settling && w'.live == w.live && w'.next == w.next + 1
    ensures MapsAreTrue(w')
  {
    assert SetupsTrue(w');
    assert SettlingTrue(w');
    assert LiveTrue(w');
    assert WakesTrue(w');
  }

  lemma WakeKeepsMaps(w: World, at: int, sid: string)
    requires MapsAreTrue(w)
    ensures MapsAreTrue(AfterWake(w, at, sid))
  {
    var w' := AfterWake(w, at, sid);
    if WakeOutcome(w.maps, sid, at) == Started {
      hide MapsAreTrue;
      BegunKeepsMaps(w, w', sid);
    }
  }

  lemma SpawnedKeepsMaps(w: World, at: int, p: Spawn)
    requires MapsAreTrue(w)
    requires p in w.setups
    ensures MapsAreTrue(AfterSpawned(w, at, p))
  {
    var w' := AfterSpawned(w, at, p);
    assert SetupsTrue(w');
    assert SettlingTrue(w');
    assert LiveTrue(w');
    assert WakesTrue(w');
  }

  lemma SetupFailedKeepsMaps(w: World, at: int, p: Spawn)
    requires MapsAreTrue(w)
    requires p in w.setups
    ensures MapsAreTrue(AfterSetupFailed(w, at, p))
  {
    var w' := AfterSetupFailed(w, at, p);
    assert SetupsTrue(w');
    assert SettlingTrue(w');
    assert LiveTrue(w');
    assert WakesTrue(w');
  }

  lemma SettledKeepsMaps(w: World, at: int, p: Spawn)
    requires MapsAreTrue(w)
    requires p in w.settling
    ensures MapsAreTrue(AfterSettled(w, at, p))
  {
    var w' := AfterSettled(w, at, p);
    assert SetupsTrue(w');
    assert SettlingTrue(w');
    assert LiveTrue(w');
    assert WakesTrue(w');
  }

  lemma ExitedKeepsMaps(w: World, at: int, p: Spawn)
    requires MapsAreTrue(w)
    requires p in w.live
    ensures MapsAreTrue(AfterExited(w, at, p))
  {
    var w' := AfterExited(w, at, p);
    assert SetupsTrue(w');
    assert SettlingTrue(w');
    assert LiveTrue(w');
    assert WakesTrue(w');
  }

  lemma StepKeepsMaps(w: World, e: Event)
    requires MapsAreTrue(w) && Enabled(w, e)
    ensures MapsAreTrue(Step(w, e))
  {
    hide MapsAreTrue, AfterWake, AfterSpawned, AfterSetupFailed, AfterSettled, AfterExited;
    match e {
      case Wake(at, sid) => WakeKeepsMaps(w, at, sid);
      case Spawned(at, p) => SpawnedKeepsMaps(w, at, p);
      case SetupFailed(at, p) => SetupFailedKeepsMaps(w, at, p);
      case Settled(at, p) => SettledKeepsMaps(w, at, p);
      case Exited(at, p) => ExitedKeepsMaps(w, at, p);
    }
  }

  lemma LogUnchanged(w: World, w': World, sid: string)
    requires LogTrue(w, sid) && w.now <= w'.now && LogOf(w'.log, sid) == LogOf(w.log, sid)
    requires sid in w.maps.active <==> sid in w'.maps.active
    requires sid in w.maps.lastExit <==> sid in w'.maps.lastExit
    requires sid in w.maps.lastExit ==> w'.maps.lastExit[sid] == w.maps.lastExit[sid]
    ensures LogTrue(w', sid)
  {
  }

  lemma LastEntry(log: seq<Entry>)
    requires Throttled(log)
    ensures log != [] ==> (log[|log| - 1].Exit? <==> |log| % 2 == 0)
  {
  }

  lemma LogGrows(log: seq<Entry>, e: Entry)
    requires Throttled(log) && (e.Start? <==> |log| % 2 == 0)
    requires log != [] ==>
      var last := log[|log| - 1]; last.at + (if last.Exit? then MIN_RESPAWN_INTERVAL_MS else 0) <= e.at
    ensures Throttled(log + [e])
  {
  }

  lemma SpawnedLog(w: World, at: int, p: Spawn)
    requires p in w.setups && at >= w.now && MapsAreTrue(w) && HistoryIsTrue(w)
    ensures LogTrue(AfterSpawned(w, at, p), w.setups[p])
  {
    hide Throttled, SettlingTrue, LiveTrue, WakesTrue, ActiveTrue;
    var log := LogOf(w.log, w.setups[p]);
    assert LogTrue(w, w.setups[p]);
    LastEntry(log);
    LogGrows(log, Start(at));
  }

  lemma ExitedLog(w: World, at: int, p: Spawn)
    requires p in w.live && at >= w.now && MapsAreTrue(w) && HistoryIsTrue(w)
    ensures LogTrue(AfterExited(w, at, p), w.live[p])
  {
    hide Throttled, SettlingTrue, SetupsTrue, WakesTrue, ActiveTrue;
    var log := LogOf(w.log, w.live[p]);
    assert LogTrue(w, w.live[p]);
    LastEntry(log);
    LogGrows(log, Exit(at));
  }

  lemma LogStep(w: World, e: Event, sid: string)
    requires MapsAreTrue(w) && HistoryIsTrue(w) && Enabled(w, e)
    ensures LogTrue(Step(w, e), sid)
  {
    assert LogTrue(w, sid);
    hide MapsAreTrue, LogTrue, Throttled;
    if e.Spawned? && sid == w.setups[e.spawn] {
      SpawnedLog(w, e.at, e.spawn);
    } else if e.Exited? && sid == w.live[e.spawn] {
      ExitedLog(w, e.at, e.spawn);
    } else {
      LogUnchanged(w, Step(w, e), sid);
    }
  }

  lemma StepKeepsHistory(w: World, e: Event)
    requires MapsAreTrue(w) && HistoryIsTrue(w) && Enabled(w, e)
    ensures HistoryIsTrue(Step(w, e))
  {
    hide Throttled, LogTrue;
    forall sid: string ensures LogTrue(Step(w, e), sid) {
      LogStep(w, e, sid);
    }
  }

  lemma {:induction false} RunKeepsInv(w: World, es: seq<Event>)
    requires MapsAreTrue(w) && HistoryIsTrue(w) && RunOk(w, es)
    ensures MapsAreTrue(Run(w, es)) && HistoryIsTrue(Run(w, es))
    decreases |es|
  {
    hide Step, Enabled, MapsAreTrue, HistoryIsTrue;
    if es != [] {
      StepKeepsMaps(w, es[0]);
      StepKeepsHistory(w, es[0]);
      RunKeepsInv(Step(w, es[0]), es[1..]);
    }
  }

  /** Over every interleaving: a session never has two running containers; a wake in flight and a
      running container are never of different spawns; a new setup never starts beside a
      running container. */
  lemma NoDuplicateContainers(start: int, es: seq<Event>)
    requires start > 0 && RunOk(Initial(start), es)
    ensures
      var w := Run(Initial(start), es);
      && (forall p, q :: p in w.live && q in w.live && w.live[p] == w.live[q] ==> p == q)
      && (forall p, q ::
           p in w.live && q in w.setups + w.settling && w.live[p] == (w.setups + w.settling)[q] ==> p == q)
      && (forall p, q :: p in w.live && q in w.setups ==> w.live[p] != w.setups[q])
  {
    RunKeepsInv(Initial(start), es);
  }

  /** Each start comes at least 5 s after the session's exit before it. */
  lemma StartsAreThrottled(start: int, es: seq<Event>, sid: string)
    requires start > 0 && RunOk(Initial(start), es)
    ensures Throttled(LogOf(Run(Initial(start), es).log, sid))
  {
    RunKeepsInv(Initial(start), es);
    assert LogTrue(Run(Initial(start), es), sid);
  }

  lemma {:induction false} EntriesInOrder(log: seq<Entry>, i: nat)
    requires Throttled(log) && i < |log|
    ensures log[i].at <= log[|log| - 1].at
    decreases |log| - i
  {
    if i < |log| - 1 {
      EntriesInOrder(log, i + 1);
    }
  }

  lemma NoneLive(w: World, sid: string)
    requires MapsAreTrue(w)
    ensures sid !in w.maps.active <==> forall p :: p in w.live ==> w.live[p] != sid
  {
  }

  lemma NoneInFlight(w: World, sid: string)
    requires MapsAreTrue(w)
    ensures sid !in w.maps.wakes <==>
      && (forall p :: p in w.setups ==> w.setups[p] != sid)
      && (forall p :: p in w.settling ==> w.settling[p] != sid)
  {
  }

  lemma ExitsAreOld(w: World, at: int, sid: string)
    requires MapsAreTrue(w) && HistoryIsTrue(w) && sid !in w.maps.active
    ensures !ExitedRecently(w.maps.lastExit, sid, at) <==>
      (sid in w.log ==> forall i :: 0 <= i < |w.log[sid]| && w.log[sid][i].Exit? ==> w.log[sid][i].at + 5000 <= at)
  {
    var log := LogOf(w.log, sid);
    assert LogTrue(w, sid);
    hide MapsAreTrue, Throttled;
    LastEntry(log);
    forall i | 0 <= i < |log| ensures log[i].at <= log[|log| - 1].at {
      EntriesInOrder(log, i);
    }
    if log == [] {
      assert sid !in w.maps.lastExit;
    } else {
      assert log[|log| - 1].Exit? && w.maps.lastExit[sid] == log[|log| - 1].at;
    }
  }

  /** Over every interleaving a wake begins a new spawn exactly when no container of the session runs,
      no wake of it is in flight, and its exits, the last one included, are at least 5000 ms old;
      otherwise it changes nothing. */
  lemma WakeStartsIff(start: int, es: seq<Event>, at: int, sid: string)
    requires start > 0 && RunOk(Initial(start), es) && Enabled(Run(Initial(start), es), Wake(at, sid))
    ensures
      var w := Run(Initial(start), es);
      var w' := Step(w, Wake(at, sid));
      && ((exists p :: p in w'.setups && p !in w.setups && w'.setups[p] == sid) <==>
           && (forall p :: p in w.live ==> w.live[p] != sid)
           && (forall p :: p in w.setups ==> w.setups[p] != sid)
           && (forall p :: p in w.settling ==> w.settling[p] != sid)
           && (sid in w.log ==>
                forall i :: 0 <= i < |w.log[sid]| && w.log[sid][i].Exit? ==> w.log[sid][i].at + 5000 <= at))
      && (w' == w.(now := at) ||
           (exists p: Spawn ::
             && p !in w.setups && p !in w.settling && p !in w.live
             && w'.setups == w.setups[p := sid]
             && w'.settling == w.settling && w'.live == w.live && w'.log == w.log))
  {
    var w := Run(Initial(start), es);
    var w' := Step(w, Wake(at, sid));
    RunKeepsInv(Initial(start), es);
    NoneLive(w, sid);
    NoneInFlight(w, sid);
    if sid !in w.maps.active {
      ExitsAreOld(w, at, sid);
    }
    if WakeOutcome(w.maps, sid, at) == Started {
      assert w.next !in w.setups && w.next in w'.setups && w'.setups[w.next] == sid;
    }
  }

  function StartsIn(log: seq<Entry>, from: int, to: int): nat {
    if log == [] then 0 else
    var e := log[|log| - 1];
    StartsIn(log[..|log| - 1], from, to) + if e.Start? && from <= e.at <= to then 1 else 0
  }

  lemma IntervalStep(exit: int, start: int, from: int)
    requires exit + MIN_RESPAWN_INTERVAL_MS <= start
    ensures (exit - from) / MIN_RESPAWN_INTERVAL_MS + 1 <= (start - from) / MIN_RESPAWN_INTERVAL_MS
  {
  }

  function Min(a: int, b: int): int {
    if a <= b then a else b
  }

  /** The starts of a throttled history up to one at time t that lie in a window. */
  lemma {:induction false} StartsBound(log: seq<Entry>, from: int, to: int)
    requires Throttled(log) && from <= to
    ensures log != [] && from <= log[|log| - 1].at ==>
      StartsIn(log, from, to) <= (Min(log[|log| - 1].at, to) - from) / MIN_RESPAWN_INTERVAL_MS + 1
    ensures log != [] && log[|log| - 1].Exit? && from <= log[|log| - 1].at <= to ==>
      StartsIn(log, from, to) <= (log[|log| - 1].at - from) / MIN_RESPAWN_INTERVAL_MS + 1
    ensures log == [] || log[|log| - 1].at < from ==> StartsIn(log, from, to) == 0
  {
    if log != [] {
      var init := log[..|log| - 1];
      StartsBound(init, from, to);
      if init != [] {
        assert init[|init| - 1] == log[|log| - 2];
        if init[|init| - 1].Exit? {
          IntervalStep(init[|init| - 1].at, log[|log| - 1].at, from);
        }
      }
    }
  }

  lemma DivisionIsMonotone(a: int, b: int)
    requires 0 <= a <= b
    ensures a / MIN_RESPAWN_INTERVAL_MS <= b / MIN_RESPAWN_INTERVAL_MS
  {
  }

  /** Any window of T ms holds at most T/5000 + 1 starts of a session. */
  lemma SpawnRate(start: int, es: seq<Event>, sid: string, from: int, T: nat)
    requires start > 0 && RunOk(Initial(start), es)
    ensures StartsIn(LogOf(Run(Initial(start), es).log, sid), from, from + T) <= T / MIN_RESPAWN_INTERVAL_MS + 1
  {
    StartsAreThrottled(start, es, sid);
    var log := LogOf(Run(Initial(start), es).log, sid);
    StartsBound(log, from, from + T);
    if log != [] && from <= log[|log| - 1].at {
      DivisionIsMonotone(Min(log[|log| - 1].at, from + T) - from, T);
    }
  }
}

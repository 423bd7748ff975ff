/** Routing of inbound messages to sessions (src/router.ts, src/session-manager.ts,
    src/db/sessions.ts).  One turn is what routeInbound does synchronously for one wired agent, up
    to the await at its end; turns of different messages may interleave in any way. */
module Router {
  import opened Wrappers
  import opened SessionDb

  datatype SessionMode = Shared | PerThread | AgentShared

  /** The sessions table in creation order; a session is named by its position.  Each row is kept
      together with the inbox of its own database. */
  datatype Session = Session(
    agentGroup: string,
    messagingGroup: Option<string>,
    thread: Option<string>,
    active: bool,
    inbox: Inbox)

  type Sessions = seq<Session>

  // ----------------------------------------------------------------- lookup

  /** JavaScript truthiness of a nullable string. */
  predicate Truthy(s: Option<string>) {
    s != None && s.value != ""
  }

  /** The WHERE clause of findSessionForAgent: an empty thread id is looked up as NULL. */
  predicate Matches(s: Session, agentGroup: string, mg: string, thread: Option<string>) {
    && s.active && s.agentGroup == agentGroup && s.messagingGroup == Some(mg)
    && s.thread == if Truthy(thread) then thread else None
  }

  function FindForAgent(h: Sessions, agentGroup: string, mg: string, thread: Option<string>): (r: Option<nat>)
    ensures r.Some? ==> r.value < |h| && Matches(h[r.value], agentGroup, mg, thread)
    ensures r.Some? ==> forall j :: 0 <= j < r.value ==> !Matches(h[j], agentGroup, mg, thread)
    ensures r.None? ==> forall j :: 0 <= j < |h| ==> !Matches(h[j], agentGroup, mg, thread)
  {
    if h == [] then None else
    var r := FindForAgent(h[..|h| - 1], agentGroup, mg, thread);
    if r.Some? then r
    else if Matches(h[|h| - 1], agentGroup, mg, thread) then Some(|h| - 1)
    else None
  }

  predicate OfAgent(s: Session, agentGroup: string) {
    s.active && s.agentGroup == agentGroup
  }

  /** The latest active session of the agent group. */
  function FindByAgentGroup(h: Sessions, agentGroup: string): (r: Option<nat>)
    ensures r.Some? ==> r.value < |h| && OfAgent(h[r.value], agentGroup)
    ensures r.Some? ==> forall j :: r.value < j < |h| ==> !OfAgent(h[j], agentGroup)
    ensures r.None? ==> forall j :: 0 <= j < |h| ==> !OfAgent(h[j], agentGroup)
  {
    if h == [] then None
    else if OfAgent(h[|h| - 1], agentGroup) then Some(|h| - 1)
    else FindByAgentGroup(h[..|h| - 1], agentGroup)
  }

  // ------------------------------------------------------------- resolution

  /** The arguments of resolveSession. */
  datatype Want = Want(agentGroup: string, messagingGroup: Option<string>, thread: Option<string>, mode: SessionMode)

  function Existing(h: Sessions, q: Want): (r: Option<nat>)
    ensures r.Some? ==> r.value < |h| && OfAgent(h[r.value], q.agentGroup)
  {
    if q.mode == AgentShared then FindByAgentGroup(h, q.agentGroup)
    else if Truthy(q.messagingGroup) then
      FindForAgent(h, q.agentGroup, q.messagingGroup.value, if q.mode == Shared then None else q.thread)
    else None
  }

  function NewSession(q: Want): Session {
    Session(q.agentGroup, q.messagingGroup, if q.mode == PerThread then q.thread else None, true, [])
  }

  function Resolved(h: Sessions, q: Want): Sessions {
    if Existing(h, q).Some? then h else h + [NewSession(q)]
  }

  function Target(h: Sessions, q: Want): (at: nat)
    ensures at < |Resolved(h, q)| && OfAgent(Resolved(h, q)[at], q.agentGroup)
  {
    if Existing(h, q).Some? then Existing(h, q).value else |h|
  }

  // ---------------------------------------------------------------- routing

  datatype Event = Event(id: Option<string>, thread: Option<string>, isMention: bool, isChat: bool, text: string,
                         content: string)

  datatype EngageMode = Pattern(regex: Option<string>) | Mention | MentionSticky | OtherMode

  datatype Wiring = Wiring(agentGroup: string, engage: EngageMode, accumulate: bool, sessionMode: SessionMode)

  datatype CommandGate = Pass | Filter | Deny

  /** What routing asks other modules, as fixed functions of the message.  regexTest gives None when
      the pattern does not compile. */
  datatype Oracles = Oracles(
    agentExists: string -> bool,
    access: (Event, string) -> bool,
    senderScope: (Event, Wiring) -> bool,
    command: (Event, string) -> CommandGate,
    regexTest: (string, string) -> Option<bool>)

  /** A messaging group with its adapter: None when none is registered, otherwise whether it
      supports threads. */
  datatype Channel = Channel(mg: string, isGroup: bool, adapter: Option<bool>, wirings: seq<Wiring>, ask: Oracles)

  /** Non-threaded adapters collapse threads to the channel. */
  function Collapsed(c: Channel, e: Event): Event {
    if c.adapter == Some(false) then e.(thread := None) else e
  }

  predicate Engages(h: Sessions, c: Channel, e: Event, w: Wiring) {
    match w.engage
    case Pattern(regex) =>
      var pat := if regex == None then "." else regex.value;
      pat == "." || c.ask.regexTest(pat, e.text) != Some(false)
    case Mention => e.isMention
    case MentionSticky =>
      e.isMention || (c.isGroup && FindForAgent(h, w.agentGroup, c.mg, e.thread).Some?)
    case OtherMode => false
  }

  predicate PassesGates(c: Channel, e: Event, w: Wiring) {
    c.ask.access(e, w.agentGroup) && c.ask.senderScope(e, w)
  }

  function EffectiveMode(c: Channel, w: Wiring): SessionMode {
    if c.adapter == Some(true) && w.sessionMode != AgentShared && c.isGroup then PerThread else w.sessionMode
  }

  function WantOf(c: Channel, e: Event, w: Wiring): Want {
    Want(w.agentGroup, Some(c.mg), e.thread, EffectiveMode(c, w))
  }

  /** messageIdForAgent; generated stands for generateId(). */
  function MessageId(e: Event, agentGroup: string, generated: string): string {
    (if Truthy(e.id) then e.id.value else generated) + ":" + agentGroup
  }

  /** INSERT, with a repeated id taken as a no-op. */
  function Received(t: Inbox, m: NewMessage): Inbox {
    if HasId(t, m.id) then t else t + [RowOf(m, NextEvenSeq(t))]
  }

  /** routeInbound's work for one wiring. */
  datatype Turn = Turn(channel: Channel, event: Event, wiring: Wiring, generated: string)

  function MessageOf(t: Turn, wake: bool): NewMessage {
    NewMessage(MessageId(t.event, t.wiring.agentGroup, t.generated), t.event.content, None, wake)
  }

  predicate Gated(t: Turn) {
    t.event.isChat && t.channel.ask.command(t.event, t.wiring.agentGroup) != Pass
  }

  /** deliverToAgent: the session is created before the command gate is asked. */
  function Delivered(h: Sessions, t: Turn, wake: bool): Sessions {
    var q := WantOf(t.channel, t.event, t.wiring);
    var at, r := Target(h, q), Resolved(h, q);
    if Gated(t) then r else r[at := r[at].(inbox := Received(r[at].inbox, MessageOf(t, wake)))]
  }

  predicate Wakes(h: Sessions, t: Turn) {
    Engages(h, t.channel, t.event, t.wiring) && PassesGates(t.channel, t.event, t.wiring)
  }

  predicate Delivers(h: Sessions, t: Turn) {
    t.channel.ask.agentExists(t.wiring.agentGroup) && (Wakes(h, t) || t.wiring.accumulate)
  }

  function Turned(h: Sessions, t: Turn): Sessions {
    if Delivers(h, t) then Delivered(h, t, Wakes(h, t)) else h
  }

  datatype Step = Take(turn: Turn) | Close(at: nat)

  function Stepped(h: Sessions, s: Step): Sessions {
    match s
    case Take(t) => Turned(h, t)
    case Close(at) => if at < |h| then h[at := h[at].(active := false)] else h
  }

  function Run(h: Sessions, steps: seq<Step>): Sessions
    decreases |steps|
  {
    if steps == [] then h else Run(Stepped(h, steps[0]), steps[1..])
  }

  /** The turns of one call of routeInbound. */
  function Turns(c: Channel, e: Event, generated: string -> string, ws: seq<Wiring>): seq<Step> {
    if ws == [] then []
    else [Take(Turn(c, e, ws[0], generated(ws[0].agentGroup)))] + Turns(c, e, generated, ws[1..])
  }

  function TurnsOf(c: Channel, e: Event, generated: string -> string): seq<Step> {
    Turns(c, Collapsed(c, e), generated, c.wirings)
  }

  function Routed(h: Sessions, c: Channel, e: Event, generated: string -> string): Sessions {
    Run(h, TurnsOf(c, e, generated))
  }

  /** How many turns of a run engage or accumulate. */
  function Delivering(h: Sessions, steps: seq<Step>): nat
    decreases |steps|
  {
    if steps == [] then 0 else
    Delivering(Stepped(h, steps[0]), steps[1..]) + if steps[0].Take? && Delivers(h, steps[0].turn) then 1 else 0
  }

  /** The reasons for which core records a dropped message. */
  datatype DropReason = NoAgentWired | NoAgentEngaged

  lemma RunOne(h: Sessions, s: Step, rest: seq<Step>)
    ensures Run(h, [s] + rest) == Run(Stepped(h, s), rest)
    ensures Delivering(h, [s] + rest) ==
      Delivering(Stepped(h, s), rest) + if s.Take? && Delivers(h, s.turn) then 1 else 0
  {
    hide Stepped;
    assert ([s] + rest)[1..] == rest;
  }

  /** An active session of the agent group, the messaging group and the thread asked for. */
  predicate IsFor(s: Session, q: Want) {
    && s.active && s.agentGroup == q.agentGroup && s.messagingGroup == q.messagingGroup
    && s.thread == if q.mode == Shared || q.thread == Some("") then None else q.thread
  }

  /** A wiring's mode is met by the message: said once more, over the rows of the table. */
  ghost predicate Addressed(h: Sessions, c: Channel, e: Event, w: Wiring) {
    && (w.engage == Mention ==> e.isMention)
    && (w.engage == MentionSticky ==>
         e.isMention || (c.isGroup && exists i ::
           && 0 <= i < |h| && h[i].active && h[i].agentGroup == w.agentGroup && h[i].messagingGroup == Some(c.mg)
           && h[i].thread == if e.thread == Some("") then None else e.thread))
    && (forall regex :: w.engage == Pattern(Some(regex)) && regex != "." ==>
         c.ask.regexTest(regex, e.text) in {None, Some(true)})
    && w.engage != OtherMode
  }

  lemma BoolOption(o: Option<bool>)
    ensures o != Some(false) <==> o in {None, Some(true)}
  {
    match o {
      case None =>
      case Some(b) => assert b == true || b == false;
    }
  }

  lemma EngagesIffAddressed(h: Sessions, c: Channel, e: Event, w: Wiring)
    ensures Engages(h, c, e, w) <==> Addressed(h, c, e, w)
  {
    match w.engage {
      case MentionSticky =>
        assert forall i :: 0 <= i < |h| ==>
          (Matches(h[i], w.agentGroup, c.mg, e.thread) <==>
            h[i].active && h[i].agentGroup == w.agentGroup && h[i].messagingGroup == Some(c.mg) &&
            h[i].thread == if e.thread == Some("") then None else e.thread);
      case Pattern(regex) =>
        if regex != None {
          BoolOption(c.ask.regexTest(regex.value, e.text));
        }
      case _ =>
    }
  }

  /** The wiring takes the message, at once or for later. */
  ghost predicate TakenBy(h: Sessions, c: Channel, e: Event, w: Wiring) {
    && c.ask.agentExists(w.agentGroup)
    && (w.accumulate || (Addressed(h, c, e, w) && c.ask.access(e, w.agentGroup) && c.ask.senderScope(e, w)))
  }

  lemma {:induction false} NobodyTakesIt(
      h: Sessions, c: Channel, e: Event, generated: string -> string, ws: seq<Wiring>)
    ensures Delivering(h, Turns(c, e, generated, ws)) == 0 <==> forall w :: w in ws ==> !TakenBy(h, c, e, w)
    ensures Delivering(h, Turns(c, e, generated, ws)) == 0 ==> Run(h, Turns(c, e, generated, ws)) == h
    decreases |ws|
  {
    hide Engages, Addressed, Delivered;
    if ws != [] {
      var t := Turn(c, e, ws[0], generated(ws[0].agentGroup));
      EngagesIffAddressed(h, c, e, ws[0]);
      RunOne(h, Take(t), Turns(c, e, generated, ws[1..]));
      assert Delivers(h, t) <==> TakenBy(h, c, e, ws[0]);
      assert forall w :: w in ws <==> w == ws[0] || w in ws[1..];
      if !Delivers(h, t) {
        NobodyTakesIt(h, c, e, generated, ws[1..]);
      }
    }
  }

  class Router {
    var sessions: Sessions

    constructor ()
      ensures sessions == []
    {
      sessions := [];
    }

    method ResolveSession(q: Want) returns (at: nat, created: bool)
      modifies this
      ensures sessions == Resolved(old(sessions), q) && at == Target(old(sessions), q)
      ensures created <==> |sessions| > |old(sessions)|
      ensures created ==>
        && at == |old(sessions)|
        && sessions == old(sessions) +
             [Session(q.agentGroup, q.messagingGroup, if q.mode == PerThread then q.thread else None, true, [])]
      ensures !created ==> sessions == old(sessions) && at < |sessions|
      // One session serves the whole agent group, the latest one.
      ensures q.mode == AgentShared ==>
        && (created <==> forall i :: 0 <= i < |old(sessions)| ==>
             !(old(sessions)[i].active && old(sessions)[i].agentGroup == q.agentGroup))
        && (!created ==>
             && sessions[at].active && sessions[at].agentGroup == q.agentGroup
             && forall i :: at < i < |sessions| ==> !(sessions[i].active && sessions[i].agentGroup == q.agentGroup))
      // Otherwise the earliest one of its messaging group, and of its thread unless that is shared.
      ensures q.mode != AgentShared && !created ==>
        && q.messagingGroup != None && q.messagingGroup != Some("")
        && IsFor(sessions[at], q) && forall i :: 0 <= i < at ==> !IsFor(sessions[i], q)
      ensures q.mode != AgentShared && created && q.messagingGroup != None && q.messagingGroup != Some("") ==>
        forall i :: 0 <= i < |old(sessions)| ==> !IsFor(old(sessions)[i], q)
    {
      if q.mode == AgentShared {
        var existing := FindByAgentGroup(sessions, q.agentGroup);
        if existing.Some? {
          return existing.value, false;
        }
      } else if Truthy(q.messagingGroup) {
        var lookupThread := if q.mode == Shared then None else q.thread;
        var existing := FindForAgent(sessions, q.agentGroup, q.messagingGroup.value, lookupThread);
        if existing.Some? {
          return existing.value, false;
        }
      }
      at, created := |sessions|, true;
      var thread := if q.mode == PerThread then q.thread else None;
      sessions := sessions + [Session(q.agentGroup, q.messagingGroup, thread, true, [])];
    }

    method DeliverToAgent(t: Turn, wake: bool)
      modifies this
      ensures sessions == Delivered(old(sessions), t, wake)
    {
      var c, w := t.channel, t.wiring;
      var mode := w.sessionMode;
      if c.adapter == Some(true) && mode != AgentShared && c.isGroup {
        mode := PerThread;
      }
      var at, created := ResolveSession(Want(w.agentGroup, Some(c.mg), t.event.thread, mode));
      if t.event.isChat {
        if c.ask.command(t.event, w.agentGroup) != Pass {
          return;
        }
      }
      var inbox := sessions[at].inbox;
      var m := NewMessage(MessageId(t.event, w.agentGroup, t.generated), t.event.content, None, wake);
      AloneNeverCollides(inbox, m);
      match TryInsert(inbox, RowOf(m, NextEvenSeq(inbox))) {
        case Inserted(rows) => sessions := sessions[at := sessions[at].(inbox := rows)];
        case IdTaken => assert sessions[at := sessions[at].(inbox := inbox)] == sessions;
      }
    }

    /** found is the messaging group's row with its wirings, if there is one; denied whether its owner
        refused the channel.  A new group is created without wirings. */
    method RouteInbound(found: Option<Channel>, denied: bool, original: Event, generated: string -> string)
      returns (groupCreated: bool, dropped: Option<DropReason>)
      modifies this
      ensures groupCreated <==> found == None && original.isMention
      ensures found == None || found.value.wirings == [] ==>
        && sessions == old(sessions)
        && dropped == if original.isMention && !(found != None && denied) then Some(NoAgentWired) else None
      ensures found != None && found.value.wirings != [] ==>
        && sessions == Routed(old(sessions), found.value, original, generated)
        && dropped ==
             if Delivering(old(sessions), TurnsOf(found.value, original, generated)) == 0
             then Some(NoAgentEngaged) else None
      // With wirings the message is recorded as dropped exactly if none of them takes it.
      ensures found != None && found.value.wirings != [] ==>
        var c := found.value;
        var e := if c.adapter == Some(false) then original.(thread := None) else original;
        && (dropped == None || dropped == Some(NoAgentEngaged))
        && (dropped != None <==> forall w :: w in c.wirings ==> !TakenBy(old(sessions), c, e, w))
      ensures dropped != None ==> sessions == old(sessions)
    {
      groupCreated, dropped := false, None;
      if found == None {
        if original.isMention {
          groupCreated, dropped := true, Some(NoAgentWired);
        }
        return;
      }
      var c := found.value;
      if |c.wirings| == 0 {
        if original.isMention && !denied {
          dropped := Some(NoAgentWired);
        }
        return;
      }
      var e := original;
      if c.adapter != None && !c.adapter.value {
        e := e.(thread := None);
      }
      NobodyTakesIt(sessions, c, e, generated, c.wirings);
      var engagedCount, accumulatedCount := FanOut(c, e, generated);
      if engagedCount + accumulatedCount == 0 {
        dropped := Some(NoAgentEngaged);
      }
    }

    /** The loop over the wirings of a group. */
    method FanOut(c: Channel, e: Event, generated: string -> string) returns (engagedCount: nat, accumulatedCount: nat)
      modifies this
      ensures sessions == Run(old(sessions), Turns(c, e, generated, c.wirings))
      ensures engagedCount + accumulatedCount == Delivering(old(sessions), Turns(c, e, generated, c.wirings))
      ensures engagedCount + accumulatedCount <= |c.wirings|
      ensures engagedCount + accumulatedCount == 0 ==> sessions == old(sessions)
    {
      ghost var all := Turns(c, e, generated, c.wirings);
      engagedCount, accumulatedCount := 0, 0;
      for i := 0 to |c.wirings|
        invariant Run(sessions, Turns(c, e, generated, c.wirings[i..])) == Run(old(sessions), all)
        invariant engagedCount + accumulatedCount + Delivering(sessions, Turns(c, e, generated, c.wirings[i..]))
          == Delivering(old(sessions), all)
        invariant engagedCount + accumulatedCount <= i
        invariant engagedCount + accumulatedCount == 0 ==> sessions == old(sessions)
      {
        hide Delivered, Engages, PassesGates, Resolved, Target;
        var w := c.wirings[i];
        var t := Turn(c, e, w, generated(w.agentGroup));
        ghost var before := sessions;
        assert c.wirings[i..][1..] == c.wirings[i + 1..];
        RunOne(sessions, Take(t), Turns(c, e, generated, c.wirings[i + 1..]));
        if c.ask.agentExists(w.agentGroup) {
          var engages := Engages(sessions, c, e, w);
          if engages && PassesGates(c, e, w) {
            DeliverToAgent(t, true);
            engagedCount := engagedCount + 1;
          } else if w.accumulate {
            DeliverToAgent(t, false);
            accumulatedCount := accumulatedCount + 1;
          }
        }
        assert sessions == Turned(before, t);
      }
    }
  }

  // ------------------------------------------------------ what a turn changes

  predicate SameRow(s: Session, t: Session) {
    s.(inbox := t.inbox) == t
  }

  /** A turn adds at most one session, of its own agent group, and writes to no other agent's
      inbox; every row keeps its key. */
  lemma TurnIsLocal(h: Sessions, t: Turn)
    ensures var r := Turned(h, t);
            && |h| <= |r| <= |h| + 1
            && (forall i :: 0 <= i < |h| ==> SameRow(h[i], r[i]))
            && (forall i :: 0 <= i < |h| && h[i].agentGroup != t.wiring.agentGroup ==> r[i] == h[i])
            && (|r| > |h| ==> SameRow(NewSession(WantOf(t.channel, t.event, t.wiring)), r[|h|]))
            && (|r| > |h| <==> Delivers(h, t) && Existing(h, WantOf(t.channel, t.event, t.wiring)).None?)
  {
    hide Existing, Engages, PassesGates, Received, Gated, EffectiveMode;
  }

  /** Only engaged messages are work for the agent: a turn adds one due message to its session when it
      wakes the agent with a new message that the command gate lets pass, and otherwise none. */
  lemma OnlyEngagedIsDue(h: Sessions, t: Turn, now: int)
    requires Delivers(h, t)
    ensures
      var q := WantOf(t.channel, t.event, t.wiring);
      var at := Target(h, q);
      var before, after := Resolved(h, q)[at].inbox, Turned(h, t)[at].inbox;
      var isNew := !HasId(before, MessageId(t.event, t.wiring.agentGroup, t.generated));
      CountDue(after, now) == CountDue(before, now) + if Wakes(h, t) && isNew && !Gated(t) then 1 else 0
  {
    hide Existing, Wakes, Gated, NextEvenSeq, HasId, MessageId;
    var q := WantOf(t.channel, t.event, t.wiring);
    var m, before := MessageOf(t, Wakes(h, t)), Resolved(h, q)[Target(h, q)].inbox;
    assert (before + [RowOf(m, NextEvenSeq(before))])[..|before|] == before;
  }

  // ------------------------------------------------------------- uniqueness

  predicate SameKey(s: Session, t: Session) {
    s.active && t.active && s.agentGroup == t.agentGroup && s.messagingGroup == t.messagingGroup && s.thread == t.thread
  }

  predicate UniqueSessions(h: Sessions) {
    forall i, j :: 0 <= i < j < |h| ==> !SameKey(h[i], h[j])
  }

  /** The row a call would store is one its own lookup would find. */
  predicate FindsWhatItStores(q: Want) {
    q.mode == AgentShared || (Truthy(q.messagingGroup) && !(q.mode == PerThread && q.thread == Some("")))
  }

  lemma ResolveKeepsUnique(h: Sessions, q: Want)
    requires UniqueSessions(h) && FindsWhatItStores(q)
    ensures UniqueSessions(Resolved(h, q))
  {
    if Existing(h, q).None? {
      forall i | 0 <= i < |h| ensures !SameKey(h[i], NewSession(q)) {
        assert q.mode == AgentShared ==> !OfAgent(h[i], q.agentGroup);
      }
    }
  }

  lemma StoresUnseen(h: Sessions, q: Want)
    requires Existing(h, q).None? && !FindsWhatItStores(q)
    ensures Existing(Resolved(h, q), q).None?
  {
    if Truthy(q.messagingGroup) {
      var r := Resolved(h, q);
      forall j | 0 <= j < |r| ensures !Matches(r[j], q.agentGroup, q.messagingGroup.value, q.thread) {
        assert j < |h| ==> r[j] == h[j];
      }
    }
  }

  /** Asking twice for the same session leaves at most one active row per key exactly when a row
      was there already or the lookup can find what it stores. */
  lemma ResolvingTwice(h: Sessions, q: Want)
    requires UniqueSessions(h)
    ensures UniqueSessions(Resolved(Resolved(h, q), q)) <==> Existing(h, q).Some? || FindsWhatItStores(q)
  {
    if FindsWhatItStores(q) {
      ResolveKeepsUnique(h, q);
      ResolveKeepsUnique(Resolved(h, q), q);
    } else if Existing(h, q).None? {
      var r := Resolved(h, q);
      StoresUnseen(h, q);
      var rr := Resolved(r, q);
      assert SameKey(rr[|h|], rr[|h| + 1]);
    }
  }

  /** Event threads are null or non-empty, and the messaging group has an id. */
  predicate Ordinary(s: Step) {
    s.Take? ==> s.turn.channel.mg != "" && s.turn.event.thread != Some("")
  }

  ghost predicate Inv(h: Sessions) {
    UniqueSessions(h) && forall i :: 0 <= i < |h| ==> UniqueIds(h[i].inbox)
  }

  /** Rows with the same keys and sound inboxes keep the invariant. */
  lemma InvOfRows(h: Sessions, r: Sessions)
    requires UniqueSessions(h) && |r| == |h| && forall i :: 0 <= i < |h| ==> SameRow(h[i], r[i])
    requires forall i :: 0 <= i < |r| ==> UniqueIds(r[i].inbox)
    ensures Inv(r)
  {
    hide UniqueIds;
    forall i, j | 0 <= i < j < |r| ensures !SameKey(r[i], r[j]) {
      assert !SameKey(h[i], h[j]);
    }
  }

  lemma ReceivedStaysUnique(b: Inbox, m: NewMessage)
    requires UniqueIds(b)
    ensures UniqueIds(Received(b, m))
  {
    hide NextEvenSeq;
  }

  lemma DeliveredKeepsInv(h: Sessions, t: Turn, wake: bool)
    requires Inv(h) && t.channel.mg != "" && t.event.thread != Some("")
    ensures Inv(Delivered(h, t, wake))
  {
    hide Existing, Gated, EffectiveMode, Received, SameKey;
    var q := WantOf(t.channel, t.event, t.wiring);
    var r, at, d := Resolved(h, q), Target(h, q), Delivered(h, t, wake);
    ResolveKeepsUnique(h, q);
    assert forall i :: 0 <= i < |r| ==> UniqueIds(r[i].inbox);
    ReceivedStaysUnique(r[at].inbox, MessageOf(t, wake));
    hide UniqueIds, UniqueSessions;
    InvOfRows(r, d);
  }

  lemma CloseKeepsInv(h: Sessions, at: nat)
    requires Inv(h)
    ensures Inv(Stepped(h, Close(at)))
  {
    hide UniqueIds;
    var r := Stepped(h, Close(at));
    forall i, j | 0 <= i < j < |r| ensures !SameKey(r[i], r[j]) {
      assert !SameKey(h[i], h[j]);
    }
  }

  lemma StepKeepsInv(h: Sessions, s: Step)
    requires Inv(h) && Ordinary(s)
    ensures Inv(Stepped(h, s))
  {
    hide UniqueIds, Delivered, Wakes, SameKey;
    match s {
      case Take(t) =>
        DeliveredKeepsInv(h, t, Wakes(h, t));
      case Close(at) =>
        hide Inv;
        CloseKeepsInv(h, at);
    }
  }

  /** Over every interleaving of turns and closings there is at most one active session per agent
      group, messaging group and thread, and no inbox holds an id twice. */
  lemma {:induction false} SessionsStayUnique(h: Sessions, steps: seq<Step>)
    requires Inv(h) && forall s :: s in steps ==> Ordinary(s)
    ensures Inv(Run(h, steps))
    decreases |steps|
  {
    hide Stepped, Ordinary, Inv;
    if steps != [] {
      assert steps[0] in steps;
      StepKeepsInv(h, steps[0]);
      SessionsStayUnique(Stepped(h, steps[0]), steps[1..]);
    }
  }

  // ------------------------------------------------------------- idempotence

  predicate Settled(h: Sessions, t: Turn) {
    Turned(h, t) == h
  }

  /** The row that a lookup gave stays its answer as long as no row of the same agent is added. */
  lemma ExistingStays(h: Sessions, r: Sessions, q: Want)
    requires |h| <= |r| && forall i :: 0 <= i < |h| ==> SameRow(h[i], r[i])
    requires forall i :: |h| <= i < |r| ==> r[i].agentGroup != q.agentGroup
    ensures Existing(r, q) == Existing(h, q)
  {
  }

  lemma OpenStays(h: Sessions, r: Sessions, agentGroup: string, mg: string, thread: Option<string>)
    requires |h| <= |r| && forall i :: 0 <= i < |h| ==> SameRow(h[i], r[i])
    requires FindForAgent(h, agentGroup, mg, thread).Some?
    ensures FindForAgent(r, agentGroup, mg, thread).Some?
  {
    var i := FindForAgent(h, agentGroup, mg, thread).value;
    assert Matches(r[i], agentGroup, mg, thread);
  }

  lemma FreshIsFound(h: Sessions, q: Want, r: Sessions)
    requires Existing(h, q).None? && FindsWhatItStores(q)
    requires |r| == |h| + 1 && (forall i :: 0 <= i < |h| ==> SameRow(h[i], r[i])) && SameRow(NewSession(q), r[|h|])
    ensures Existing(r, q) == Some(|h|)
  {
    if q.mode != AgentShared {
      assert Matches(r[|h|], q.agentGroup, q.messagingGroup.value, if q.mode == Shared then None else q.thread);
    } else {
      assert OfAgent(r[|h|], q.agentGroup);
    }
  }

  lemma ReceivedTwice(b: Inbox, m: NewMessage, n: NewMessage)
    requires m.id == n.id
    ensures Received(Received(b, m), n) == Received(b, m)
  {
    var r := Received(b, m);
    if !HasId(b, m.id) {
      assert r[|b|].id == n.id;
    }
  }

  /** Delivering again what was delivered changes nothing, whichever branch delivers it. */
  lemma DeliveredTwice(h: Sessions, t: Turn, wake: bool, again: bool)
    requires FindsWhatItStores(WantOf(t.channel, t.event, t.wiring))
    ensures Delivered(Delivered(h, t, wake), t, again) == Delivered(h, t, wake)
  {
    hide Existing, Gated, EffectiveMode, FindsWhatItStores, HasId, NextEvenSeq;
    var q := WantOf(t.channel, t.event, t.wiring);
    var r := Delivered(h, t, wake);
    if Existing(h, q).Some? {
      ExistingStays(h, r, q);
    } else {
      FreshIsFound(h, q, r);
    }
    var at := Target(h, q);
    assert Existing(r, q) == Some(at);
    if !Gated(t) {
      ReceivedTwice(Resolved(h, q)[at].inbox, MessageOf(t, wake), MessageOf(t, again));
      assert r[at := r[at]] == r;
    }
  }

  lemma TurnSettles(h: Sessions, t: Turn)
    requires FindsWhatItStores(WantOf(t.channel, t.event, t.wiring))
    ensures Settled(Turned(h, t), t)
  {
    hide Existing, Delivered, FindsWhatItStores, PassesGates;
    var r := Turned(h, t);
    TurnIsLocal(h, t);
    if Delivers(h, t) {
      if t.wiring.engage == MentionSticky && FindForAgent(h, t.wiring.agentGroup, t.channel.mg, t.event.thread).Some? {
        OpenStays(h, r, t.wiring.agentGroup, t.channel.mg, t.event.thread);
      }
      assert Delivers(r, t);
      DeliveredTwice(h, t, Wakes(h, t), Wakes(r, t));
    }
  }

  lemma EngagesStays(h: Sessions, r: Sessions, c: Channel, e: Event, w: Wiring)
    requires |h| <= |r| && forall i :: 0 <= i < |h| ==> SameRow(h[i], r[i])
    requires forall i :: |h| <= i < |r| ==> r[i].agentGroup != w.agentGroup
    ensures Engages(r, c, e, w) == Engages(h, c, e, w)
  {
    if FindForAgent(h, w.agentGroup, c.mg, e.thread).Some? {
      OpenStays(h, r, w.agentGroup, c.mg, e.thread);
    }
  }

  /** Another agent's turn does not disturb it. */
  lemma SettledStays(h: Sessions, t: Turn, other: Turn)
    requires Settled(h, t) && other.wiring.agentGroup != t.wiring.agentGroup
    ensures Settled(Turned(h, other), t)
  {
    hide Existing, Engages, PassesGates, Received, Gated, EffectiveMode;
    var r := Turned(h, other);
    TurnIsLocal(h, other);
    TurnIsLocal(h, t);
    EngagesStays(h, r, t.channel, t.event, t.wiring);
    if Delivers(h, t) {
      var q := WantOf(t.channel, t.event, t.wiring);
      ExistingStays(h, r, q);
      var at := Existing(h, q).value;
      assert r[at] == h[at];
      assert Turned(h, t)[at] == h[at];
      assert r[at := r[at]] == r;
    }
  }

  predicate DistinctAgents(ws: seq<Wiring>) {
    forall i, j :: 0 <= i < j < |ws| ==> ws[i].agentGroup != ws[j].agentGroup
  }

  lemma {:induction false} SettledThroughTurns(
      h: Sessions, t: Turn, c: Channel, e: Event, generated: string -> string, ws: seq<Wiring>)
    requires Settled(h, t) && forall w :: w in ws ==> w.agentGroup != t.wiring.agentGroup
    ensures Settled(Run(h, Turns(c, e, generated, ws)), t)
    decreases |ws|
  {
    hide Settled, Turned;
    if ws != [] {
      assert ws[0] in ws;
      var other := Turn(c, e, ws[0], generated(ws[0].agentGroup));
      SettledStays(h, t, other);
      RunOne(h, Take(other), Turns(c, e, generated, ws[1..]));
      SettledThroughTurns(Turned(h, other), t, c, e, generated, ws[1..]);
    }
  }

  ghost predicate AllSettled(h: Sessions, c: Channel, e: Event, ws: seq<Wiring>) {
    forall w, g :: w in ws ==> Settled(h, Turn(c, e, w, g))
  }

  /** With an id on the message, the generated one is not used. */
  lemma GeneratedIdUnused(h: Sessions, t: Turn, g: string)
    requires Truthy(t.event.id)
    ensures Turned(h, t.(generated := g)) == Turned(h, t)
  {
    hide Existing, Engages, PassesGates, Received, EffectiveMode;
  }

  lemma SettledWithAnyId(h: Sessions, t: Turn, g: string)
    requires Settled(h, t) && Truthy(t.event.id)
    ensures Settled(h, t.(generated := g))
  {
    hide Turned;
    GeneratedIdUnused(h, t, g);
  }

  lemma {:induction false} TurnsSettle(
      h: Sessions, c: Channel, e: Event, generated: string -> string, ws: seq<Wiring>)
    requires DistinctAgents(ws) && c.mg != "" && e.thread != Some("") && Truthy(e.id)
    ensures AllSettled(Run(h, Turns(c, e, generated, ws)), c, e, ws)
    decreases |ws|
  {
    hide Settled, Turned;
    if ws != [] {
      var t := Turn(c, e, ws[0], generated(ws[0].agentGroup));
      var h1 := Turned(h, t);
      var r := Run(h1, Turns(c, e, generated, ws[1..]));
      RunOne(h, Take(t), Turns(c, e, generated, ws[1..]));
      TurnsSettle(h1, c, e, generated, ws[1..]);
      TurnSettles(h, t);
      SettledThroughTurns(h1, t, c, e, generated, ws[1..]);
      forall w, g | w in ws ensures Settled(r, Turn(c, e, w, g)) {
        if w == ws[0] {
          SettledWithAnyId(r, t, g);
        } else {
          assert w in ws[1..];
        }
      }
    }
  }

  lemma {:induction false} SettledTurnsDoNothing(
      h: Sessions, c: Channel, e: Event, generated: string -> string, ws: seq<Wiring>)
    requires AllSettled(h, c, e, ws)
    ensures Run(h, Turns(c, e, generated, ws)) == h
    decreases |ws|
  {
    hide Turned;
    if ws != [] {
      var t := Turn(c, e, ws[0], generated(ws[0].agentGroup));
      assert Settled(h, t);
      RunOne(h, Take(t), Turns(c, e, generated, ws[1..]));
      SettledTurnsDoNothing(h, c, e, generated, ws[1..]);
    }
  }

  /** Routing a message with a non-empty id a second time changes no session and no inbox. */
  lemma RoutingIsIdempotent(h: Sessions, c: Channel, e: Event, first: string -> string, second: string -> string)
    requires DistinctAgents(c.wirings) && c.mg != "" && Truthy(e.id)
    requires c.adapter == Some(false) || e.thread != Some("")
    ensures Routed(Routed(h, c, e, first), c, e, second) == Routed(h, c, e, first)
  {
    hide Run, Turns, AllSettled;
    TurnsSettle(h, c, Collapsed(c, e), first, c.wirings);
    SettledTurnsDoNothing(Routed(h, c, e, first), c, Collapsed(c, e), second, c.wirings);
  }

  // ------------------------------------------------------- who gets a message

  /** Nothing of one agent group has changed. */
  ghost predicate KeepsAgent(h: Sessions, r: Sessions, agentGroup: string) {
    && |h| <= |r|
    && (forall i :: 0 <= i < |h| ==> SameRow(h[i], r[i]))
    && (forall i :: 0 <= i < |h| && h[i].agentGroup == agentGroup ==> r[i] == h[i])
    && (forall i :: |h| <= i < |r| ==> r[i].agentGroup != agentGroup)
  }

  lemma TurnKeepsAgent(h: Sessions, t: Turn, agentGroup: string)
    requires t.wiring.agentGroup != agentGroup
    ensures KeepsAgent(h, Turned(h, t), agentGroup)
  {
    hide Turned;
    TurnIsLocal(h, t);
  }

  lemma KeepsAgentTrans(h: Sessions, r: Sessions, u: Sessions, agentGroup: string)
    requires KeepsAgent(h, r, agentGroup) && KeepsAgent(r, u, agentGroup)
    ensures KeepsAgent(h, u, agentGroup)
  {
    assert forall i :: 0 <= i < |h| ==> SameRow(r[i], u[i]);
  }

  lemma KeepsAgentSelf(h: Sessions, agentGroup: string)
    ensures KeepsAgent(h, h, agentGroup)
  {
  }

  lemma {:induction false} TurnsKeepAgent(
      h: Sessions, c: Channel, e: Event, generated: string -> string, ws: seq<Wiring>, agentGroup: string)
    requires forall w :: w in ws ==> w.agentGroup != agentGroup
    ensures KeepsAgent(h, Run(h, Turns(c, e, generated, ws)), agentGroup)
    decreases |ws|
  {
    hide KeepsAgent, Turned;
    if ws == [] {
      assert KeepsAgent(h, h, agentGroup) by { KeepsAgentSelf(h, agentGroup); }
    } else {
      var t := Turn(c, e, ws[0], generated(ws[0].agentGroup));
      assert ws[0] in ws;
      TurnKeepsAgent(h, t, agentGroup);
      RunOne(h, Take(t), Turns(c, e, generated, ws[1..]));
      TurnsKeepAgent(Turned(h, t), c, e, generated, ws[1..], agentGroup);
      KeepsAgentTrans(h, Turned(h, t), Run(h, Turns(c, e, generated, ws)), agentGroup);
    }
  }

  /** The turn of one wiring, apart from those before and after it. */
  lemma {:induction false} TurnsSplit(
      h: Sessions, c: Channel, e: Event, generated: string -> string, ws: seq<Wiring>, k: nat)
    returns (before: Sessions)
    requires DistinctAgents(ws) && k < |ws|
    ensures KeepsAgent(h, before, ws[k].agentGroup)
    ensures KeepsAgent(
      Turned(before, Turn(c, e, ws[k], generated(ws[k].agentGroup))), Run(h, Turns(c, e, generated, ws)),
      ws[k].agentGroup)
    decreases |ws|
  {
    hide KeepsAgent, Turned;
    var t := Turn(c, e, ws[0], generated(ws[0].agentGroup));
    RunOne(h, Take(t), Turns(c, e, generated, ws[1..]));
    if k == 0 {
      before := h;
      KeepsAgentSelf(h, ws[0].agentGroup);
      TurnsKeepAgent(Turned(h, t), c, e, generated, ws[1..], ws[0].agentGroup);
    } else {
      before := TurnsSplit(Turned(h, t), c, e, generated, ws[1..], k - 1);
      TurnKeepsAgent(h, t, ws[k].agentGroup);
      KeepsAgentTrans(h, Turned(h, t), before, ws[k].agentGroup);
    }
  }

  /** No inbox of the agent group holds the id. */
  ghost predicate IsNew(h: Sessions, agentGroup: string, id: string) {
    forall i, j :: 0 <= i < |h| && h[i].agentGroup == agentGroup && 0 <= j < |h[i].inbox| ==> h[i].inbox[j].id != id
  }

  /** An active session of the agent group has this message in its inbox, as written. */
  ghost predicate Holds(h: Sessions, agentGroup: string, id: string, content: string, wake: bool) {
    exists i, j ::
      && 0 <= i < |h| && 0 <= j < |h[i].inbox| && h[i].active && h[i].agentGroup == agentGroup
      && h[i].inbox[j] == MessageIn(id, h[i].inbox[j].seqNo, Pending, None, 0, wake, content)
  }

  /** Every copy of the message is in a session for the right conversation. */
  ghost predicate InPlace(h: Sessions, c: Channel, w: Wiring, thread: Option<string>, id: string) {
    forall i, j ::
      0 <= i < |h| && h[i].agentGroup == w.agentGroup && 0 <= j < |h[i].inbox| && h[i].inbox[j].id == id &&
      w.sessionMode != AgentShared ==>
        && h[i].messagingGroup == Some(c.mg)
        && if w.sessionMode == PerThread || (c.adapter == Some(true) && c.isGroup)
           then h[i].thread == thread || (thread == Some("") && h[i].thread == None)
           else h[i].thread == None
  }

  lemma HoldsKept(h: Sessions, r: Sessions, agentGroup: string, id: string, content: string, wake: bool)
    requires KeepsAgent(h, r, agentGroup)
    ensures Holds(r, agentGroup, id, content, wake) <==> Holds(h, agentGroup, id, content, wake)
  {
    assert forall i :: 0 <= i < |h| && h[i].agentGroup == agentGroup ==> r[i] == h[i];
    assert forall i :: 0 <= i < |r| && r[i].agentGroup == agentGroup ==> i < |h| && r[i] == h[i];
  }

  lemma NewnessKept(h: Sessions, r: Sessions, agentGroup: string, id: string)
    requires KeepsAgent(h, r, agentGroup)
    ensures IsNew(r, agentGroup, id) <==> IsNew(h, agentGroup, id)
  {
    assert forall i :: 0 <= i < |h| && h[i].agentGroup == agentGroup ==> r[i] == h[i];
    assert forall i :: 0 <= i < |r| && r[i].agentGroup == agentGroup ==> i < |h| && r[i] == h[i];
  }

  lemma EngagesKept(h: Sessions, r: Sessions, c: Channel, e: Event, w: Wiring)
    requires KeepsAgent(h, r, w.agentGroup)
    ensures Engages(r, c, e, w) == Engages(h, c, e, w)
  {
    EngagesStays(h, r, c, e, w);
  }

  lemma InPlaceKept(h: Sessions, r: Sessions, c: Channel, w: Wiring, thread: Option<string>, id: string)
    requires KeepsAgent(h, r, w.agentGroup) && InPlace(h, c, w, thread, id)
    ensures InPlace(r, c, w, thread, id)
  {
    forall i, j | 0 <= i < |r| && r[i].agentGroup == w.agentGroup && 0 <= j < |r[i].inbox| && r[i].inbox[j].id == id
      ensures i < |h| && r[i] == h[i] && h[i].inbox[j].id == id
    {
      assert i < |h| && SameRow(h[i], r[i]);
    }
  }

  /** The row that a turn adds is the only one with a new id. */
  lemma TurnAddsRow(h: Sessions, t: Turn, i: nat, j: nat)
    requires IsNew(h, t.wiring.agentGroup, MessageId(t.event, t.wiring.agentGroup, t.generated))
    requires i < |Turned(h, t)| && j < |Turned(h, t)[i].inbox|
    requires Turned(h, t)[i].agentGroup == t.wiring.agentGroup
    requires Turned(h, t)[i].inbox[j].id == MessageId(t.event, t.wiring.agentGroup, t.generated)
    ensures Delivers(h, t) && !Gated(t) && i == Target(h, WantOf(t.channel, t.event, t.wiring))
    ensures Turned(h, t)[i].inbox[j] == RowOf(MessageOf(t, Wakes(h, t)), Turned(h, t)[i].inbox[j].seqNo)
  {
    hide Existing, Wakes, Gated, NextEvenSeq, EffectiveMode, MessageId;
    var q := WantOf(t.channel, t.event, t.wiring);
    var r, res := Turned(h, t), Resolved(h, q);
    assert IsNew(res, t.wiring.agentGroup, MessageId(t.event, t.wiring.agentGroup, t.generated));
  }

  lemma RowIsAdded(h: Sessions, t: Turn) returns (at: nat, j: nat)
    requires IsNew(h, t.wiring.agentGroup, MessageId(t.event, t.wiring.agentGroup, t.generated))
    requires Delivers(h, t) && !Gated(t)
    ensures at < |Turned(h, t)| && OfAgent(Turned(h, t)[at], t.wiring.agentGroup) && j < |Turned(h, t)[at].inbox|
    ensures Turned(h, t)[at].inbox[j] == RowOf(MessageOf(t, Wakes(h, t)), Turned(h, t)[at].inbox[j].seqNo)
  {
    hide Existing, Wakes, Gated, NextEvenSeq, EffectiveMode, MessageId;
    var q := WantOf(t.channel, t.event, t.wiring);
    at, j := Target(h, q), |Resolved(h, q)[Target(h, q)].inbox|;
  }

  lemma TurnHolds(h: Sessions, t: Turn, wake: bool)
    requires IsNew(h, t.wiring.agentGroup, MessageId(t.event, t.wiring.agentGroup, t.generated))
    ensures
      var ag, id := t.wiring.agentGroup, MessageId(t.event, t.wiring.agentGroup, t.generated);
      && (Holds(Turned(h, t), ag, id, t.event.content, wake) <==>
           Delivers(h, t) && !Gated(t) && wake == Wakes(h, t))
      && (IsNew(Turned(h, t), ag, id) <==> !(Delivers(h, t) && !Gated(t)))
  {
    var ag, id := t.wiring.agentGroup, MessageId(t.event, t.wiring.agentGroup, t.generated);
    var r := Turned(h, t);
    forall i, j | 0 <= i < |r| && r[i].agentGroup == ag && 0 <= j < |r[i].inbox| && r[i].inbox[j].id == id
      ensures Delivers(h, t) && !Gated(t) && r[i].inbox[j].trigger == Wakes(h, t)
    {
      TurnAddsRow(h, t, i, j);
    }
    if Delivers(h, t) && !Gated(t) {
      var at, j := RowIsAdded(h, t);
    }
    hide Turned, MessageId, Delivers, Gated, Wakes;
  }

  lemma TargetInPlace(h: Sessions, c: Channel, e: Event, w: Wiring)
    ensures
      var q := WantOf(c, e, w);
      var s := Resolved(h, q)[Target(h, q)];
      w.sessionMode != AgentShared ==>
        && s.messagingGroup == Some(c.mg)
        && if w.sessionMode == PerThread || (c.adapter == Some(true) && c.isGroup)
           then s.thread == e.thread || (e.thread == Some("") && s.thread == None)
           else s.thread == None
  {
  }

  lemma TurnInPlace(h: Sessions, t: Turn)
    requires IsNew(h, t.wiring.agentGroup, MessageId(t.event, t.wiring.agentGroup, t.generated))
    ensures InPlace(
      Turned(h, t), t.channel, t.wiring, t.event.thread, MessageId(t.event, t.wiring.agentGroup, t.generated))
  {
    var r, q := Turned(h, t), WantOf(t.channel, t.event, t.wiring);
    forall i, j | 0 <= i < |r| && r[i].agentGroup == t.wiring.agentGroup && 0 <= j < |r[i].inbox| &&
      r[i].inbox[j].id == MessageId(t.event, t.wiring.agentGroup, t.generated)
      ensures i == Target(h, q) && SameRow(Resolved(h, q)[i], r[i])
    {
      TurnAddsRow(h, t, i, j);
      hide Existing, Wakes, Gated, NextEvenSeq, EffectiveMode, MessageId;
    }
    hide Turned, Resolved, Target, MessageId, EffectiveMode;
    TargetInPlace(h, t.channel, t.event, t.wiring);
  }

  lemma AddressedByMode(h: Sessions, c: Channel, e: Event, w: Wiring)
    ensures w.engage == Mention ==> (Engages(h, c, e, w) <==> e.isMention)
    ensures w.engage in {Pattern(None), Pattern(Some("."))} ==> Engages(h, c, e, w)
    ensures forall regex :: w.engage == Pattern(Some(regex)) && regex != "." ==>
      (Engages(h, c, e, w) <==> c.ask.regexTest(regex, e.text) in {None, Some(true)})
    ensures w.engage == MentionSticky ==>
      (Engages(h, c, e, w) <==> e.isMention || (c.isGroup && exists i ::
        && 0 <= i < |h| && h[i].active && h[i].agentGroup == w.agentGroup && h[i].messagingGroup == Some(c.mg)
        && h[i].thread == if e.thread == Some("") then None else e.thread))
    ensures w.engage == OtherMode ==> !Engages(h, c, e, w)
  {
    EngagesIffAddressed(h, c, e, w);
    hide Engages;
  }

  lemma WhoGetsIt(h: Sessions, c: Channel, e: Event, generated: string -> string, k: nat, wake: bool)
    requires DistinctAgents(c.wirings) && k < |c.wirings|
    requires var ag := c.wirings[k].agentGroup; IsNew(h, ag, MessageId(e, ag, generated(ag)))
    ensures
      var w, ev := c.wirings[k], Collapsed(c, e);
      var id := MessageId(e, w.agentGroup, generated(w.agentGroup));
      var t := Turn(c, ev, w, generated(w.agentGroup));
      var r := Routed(h, c, e, generated);
      && (Holds(r, w.agentGroup, id, e.content, wake) <==> Delivers(h, t) && !Gated(t) && wake == Wakes(h, t))
      && (IsNew(r, w.agentGroup, id) <==> !(Delivers(h, t) && !Gated(t)))
      && InPlace(r, c, w, ev.thread, id)
  {
    hide KeepsAgent, Run, Turns, Turned, Holds, IsNew, InPlace, Gated, Engages, PassesGates, DistinctAgents;
    var w, ev := c.wirings[k], Collapsed(c, e);
    var id := MessageId(e, w.agentGroup, generated(w.agentGroup));
    var t := Turn(c, ev, w, generated(w.agentGroup));
    var r := Routed(h, c, e, generated);
    var before := TurnsSplit(h, c, ev, generated, c.wirings, k);
    NewnessKept(h, before, w.agentGroup, id);
    EngagesKept(h, before, c, ev, w);
    TurnHolds(before, t, wake);
    TurnInPlace(before, t);
    var after := Turned(before, t);
    HoldsKept(after, r, w.agentGroup, id, e.content, wake);
    NewnessKept(after, r, w.agentGroup, id);
    InPlaceKept(after, r, c, w, ev.thread, id);
  }

  /** One routed message, wiring by wiring.  Where each agent is wired once and has no message with this id,
      it gets the message as work exactly if it exists, its wiring's mode is met, both gates admit the
      sender and the command gate lets the message pass; as context exactly if it accumulates what it is
      not woken for; and otherwise not at all.  It finds it in a session for the right conversation. */
  lemma WhoIsWoken(h: Sessions, c: Channel, e: Event, generated: string -> string, k: nat)
    requires DistinctAgents(c.wirings) && k < |c.wirings|
    requires
      var ag := c.wirings[k].agentGroup;
      IsNew(h, ag, (if e.id == None || e.id.value == "" then generated(ag) else e.id.value) + ":" + ag)
    ensures
      var w := c.wirings[k];
      var ag, r := w.agentGroup, Routed(h, c, e, generated);
      var ev := if c.adapter == Some(false) then e.(thread := None) else e;
      var id := (if e.id == None || e.id.value == "" then generated(ag) else e.id.value) + ":" + ag;
      var passes := c.ask.agentExists(ag) && (e.isChat ==> c.ask.command(ev, ag) == Pass);
      var admitted := passes && c.ask.access(ev, ag) && c.ask.senderScope(ev, w);
      var woken := Holds(r, ag, id, e.content, true);
      && (w.engage == Mention ==> (woken <==> admitted && e.isMention))
      && (w.engage in {Pattern(None), Pattern(Some("."))} ==> (woken <==> admitted))
      && (forall regex :: w.engage == Pattern(Some(regex)) && regex != "." ==>
           (woken <==> admitted && c.ask.regexTest(regex, e.text) in {None, Some(true)}))
      && (w.engage == MentionSticky ==>
           (woken <==> admitted && (e.isMention || (c.isGroup && exists i ::
             && 0 <= i < |h| && h[i].active && h[i].agentGroup == ag && h[i].messagingGroup == Some(c.mg)
             && h[i].thread == if ev.thread == Some("") then None else ev.thread))))
      && (w.engage == OtherMode ==> !woken)
      && (Holds(r, ag, id, e.content, false) <==> passes && w.accumulate && !woken)
      && (IsNew(r, ag, id) <==> !woken && !Holds(r, ag, id, e.content, false))
      && InPlace(r, c, w, ev.thread, id)
  {
    hide Routed, Holds, IsNew, InPlace, DistinctAgents, Engages;
    var w := c.wirings[k];
    WhoGetsIt(h, c, e, generated, k, true);
    WhoGetsIt(h, c, e, generated, k, false);
    AddressedByMode(h, c, Collapsed(c, e), w);
  }

  // ---------------------------------------------------------- mention-sticky

  /** The thread under which this wiring stores the session of a message. */
  function StoredThread(c: Channel, w: Wiring, thread: Option<string>): Option<string> {
    if EffectiveMode(c, w) == PerThread then thread else None
  }

  /** The turn hands a message for this thread to the agent without needing a session: a mention
      that passes both gates, or any message under the accumulate policy. */
  predicate Activates(s: Step, c: Channel, w: Wiring, thread: Option<string>) {
    && s.Take? && s.turn.channel.mg == c.mg && s.turn.wiring.agentGroup == w.agentGroup
    && c.ask.agentExists(w.agentGroup)
    && (w.accumulate || (s.turn.event.isMention && PassesGates(c, s.turn.event, w)))
    && StoredThread(c, w, s.turn.event.thread) == thread
  }

  predicate Sticky(c: Channel, w: Wiring) {
    w.engage == MentionSticky && w.sessionMode != AgentShared && c.isGroup && c.mg != ""
  }

  /** Turns of this wiring use this channel's settings; any other turn is free. */
  ghost predicate Consistent(s: Step, c: Channel, w: Wiring) {
    && s.Take?
    && (s.turn.channel.mg == c.mg && s.turn.wiring.agentGroup == w.agentGroup ==>
      s.turn.channel == c && s.turn.wiring == w && s.turn.event.thread != Some(""))
  }

  predicate Open(h: Sessions, c: Channel, w: Wiring, thread: Option<string>) {
    FindForAgent(h, w.agentGroup, c.mg, thread).Some?
  }

  /** No session of this wiring under a thread it would not store. */
  ghost predicate OnlyStored(h: Sessions, c: Channel, w: Wiring) {
    forall thread :: thread != Some("") && Open(h, c, w, thread) ==> StoredThread(c, w, thread) == thread
  }

  lemma EffectiveModeKeeps(c: Channel, w: Wiring)
    ensures EffectiveMode(c, w) == AgentShared <==> w.sessionMode == AgentShared
  {
  }

  lemma TurnOpens(h: Sessions, t: Turn, r: Sessions, thread: Option<string>)
    requires Sticky(t.channel, t.wiring) && OnlyStored(h, t.channel, t.wiring)
    requires t.event.thread != Some("") && thread != Some("") && !Open(h, t.channel, t.wiring, thread)
    requires r == Turned(h, t)
    ensures Open(r, t.channel, t.wiring, thread) <==> Activates(Take(t), t.channel, t.wiring, thread)
  {
    hide Turned, PassesGates, EffectiveMode;
    var c, w := t.channel, t.wiring;
    TurnIsLocal(h, t);
    var stored := StoredThread(c, w, t.event.thread);
    var q := WantOf(c, t.event, w);
    assert stored != Some("");
    assert q.mode != AgentShared by {
      assert EffectiveMode(c, w) != AgentShared by { EffectiveModeKeeps(c, w); }
    }
    assert Existing(h, q).Some? <==> Open(h, c, w, stored);
    if |r| > |h| {
      assert NewSession(q).thread == stored;
      assert Matches(r[|h|], w.agentGroup, c.mg, thread) <==> stored == thread;
    }
    forall i | 0 <= i < |h| ensures !Matches(r[i], w.agentGroup, c.mg, thread) {
      assert SameRow(h[i], r[i]);
    }
    if Activates(Take(t), c, w, thread) {
      assert Delivers(h, t) && |r| > |h|;
    } else if stored == thread {
      assert !Delivers(h, t) by {
        if c.ask.agentExists(w.agentGroup) && !t.event.isMention {
          assert Open(h, c, w, t.event.thread) ==> stored == t.event.thread;
        }
      }
    }
  }

  lemma StepOpens(h: Sessions, s: Step, c: Channel, w: Wiring, thread: Option<string>)
    requires Sticky(c, w) && Consistent(s, c, w) && OnlyStored(h, c, w) && thread != Some("")
    ensures Open(Stepped(h, s), c, w, thread) <==> Open(h, c, w, thread) || Activates(s, c, w, thread)
  {
    var t := s.turn;
    var r := Turned(h, t);
    TurnIsLocal(h, t);
    if Open(h, c, w, thread) {
      OpenStays(h, r, w.agentGroup, c.mg, thread);
    } else if t.channel.mg == c.mg && t.wiring.agentGroup == w.agentGroup {
      TurnOpens(h, t, r, thread);
    } else {
      hide Turned;
      assert |r| > |h| ==> !Matches(r[|h|], w.agentGroup, c.mg, thread);
      forall i | 0 <= i < |r| ensures !Matches(r[i], w.agentGroup, c.mg, thread) {
        if i < |h| {
          assert SameRow(h[i], r[i]);
          assert !Matches(h[i], w.agentGroup, c.mg, thread);
        }
      }
    }
  }

  lemma NothingOpen(c: Channel, w: Wiring, thread: Option<string>)
    ensures !Open([], c, w, thread)
  {
  }

  lemma OnlyStoredIf(h: Sessions, c: Channel, w: Wiring)
    requires forall th :: th != Some("") && Open(h, c, w, th) ==> StoredThread(c, w, th) == th
    ensures OnlyStored(h, c, w)
  {
    hide Open, StoredThread;
  }

  lemma ActivatedIsStored(s: Step, c: Channel, w: Wiring, thread: Option<string>)
    requires Activates(s, c, w, thread)
    ensures StoredThread(c, w, thread) == thread
  {
  }

  lemma {:induction false} RunSnoc(h: Sessions, steps: seq<Step>, last: Step)
    ensures Run(h, steps + [last]) == Stepped(Run(h, steps), last)
    decreases |steps|
  {
    hide Stepped;
    if steps == [] {
      assert [] + [last] == [last] && [last][1..] == [];
      assert Run(Stepped(h, last), []) == Stepped(h, last);
    } else {
      assert (steps + [last])[1..] == steps[1..] + [last];
      RunSnoc(Stepped(h, steps[0]), steps[1..], last);
    }
  }

  lemma {:induction false} OpenIffActivated(steps: seq<Step>, c: Channel, w: Wiring, thread: Option<string>)
    requires Sticky(c, w) && thread != Some("") && forall s :: s in steps ==> Consistent(s, c, w)
    ensures Open(Run([], steps), c, w, thread) <==>
      exists k :: 0 <= k < |steps| && Activates(steps[k], c, w, thread)
    decreases |steps|
  {
    hide Activates, Sticky, Consistent, Open, Stepped, OnlyStored, StoredThread;
    if steps == [] {
      NothingOpen(c, w, thread);
    } else {
      var init, last := steps[..|steps| - 1], steps[|steps| - 1];
      assert steps == init + [last] && last in steps;
      RunSnoc([], init, last);
      var h := Run([], init);
      OpenIffActivated(init, c, w, thread);
      assert OnlyStored(h, c, w) by {
        forall th | th != Some("") ensures Open(h, c, w, th) ==> StoredThread(c, w, th) == th {
          OpenIffActivated(init, c, w, th);
          if Open(h, c, w, th) {
            var k :| 0 <= k < |init| && Activates(init[k], c, w, th);
            ActivatedIsStored(init[k], c, w, th);
          }
        }
        OnlyStoredIf(h, c, w);
      }
      StepOpens(h, last, c, w, thread);
      assert forall k :: 0 <= k < |init| ==> steps[k] == init[k];
    }
  }

  /** After any history without closings, a message that is no mention engages a mention-sticky
      wiring exactly when an earlier message of the wiring activated its thread. */
  lemma StickyIffActivated(steps: seq<Step>, c: Channel, w: Wiring, e: Event)
    requires Sticky(c, w) && !e.isMention && e.thread != Some("") && forall s :: s in steps ==> Consistent(s, c, w)
    ensures Engages(Run([], steps), c, e, w) <==>
      exists k :: 0 <= k < |steps| && Activates(steps[k], c, w, e.thread)
  {
    hide Activates, Consistent, Run;
    OpenIffActivated(steps, c, w, e.thread);
  }

  /** A mention for this wiring in this thread that passed the access gate and the sender scope. */
  ghost predicate AdmittedMention(s: Step, c: Channel, w: Wiring, thread: Option<string>) {
    && s.Take? && s.turn.channel == c && s.turn.wiring == w
    && s.turn.event.isMention && PassesGates(c, s.turn.event, w) && s.turn.event.thread == thread
  }

  ghost predicate CollapsedTurn(s: Step) {
    s.Take? ==> s.turn.event == Collapsed(s.turn.channel, s.turn.event)
  }

  lemma StoredWithAdapter(c: Channel, w: Wiring, e: Event)
    requires Sticky(c, w) && c.adapter != None && e == Collapsed(c, e)
    ensures StoredThread(c, w, e.thread) == e.thread
  {
    if c.adapter.value {
      assert c.adapter == Some(true);
    } else {
      assert c.adapter == Some(false);
      assert e.thread == Collapsed(c, e).thread == None;
    }
  }

  lemma ActivatesIffAdmitted(s: Step, c: Channel, w: Wiring, thread: Option<string>)
    requires Sticky(c, w) && !w.accumulate && c.adapter != None && c.ask.agentExists(w.agentGroup)
    requires Consistent(s, c, w) && CollapsedTurn(s) && (c.adapter == Some(false) ==> thread == None)
    ensures Activates(s, c, w, thread) <==> AdmittedMention(s, c, w, thread)
  {
    hide PassesGates;
    if s.turn.channel == c && s.turn.wiring == w {
      StoredWithAdapter(c, w, s.turn.event);
    }
  }

  /** With a registered adapter and the drop policy, that is an earlier mention in the same effective
      thread that passed both gates.  The command gate plays no part. */
  lemma StickyIffMentioned(steps: seq<Step>, c: Channel, w: Wiring, e: Event)
    requires Sticky(c, w) && !w.accumulate && c.adapter != None && c.ask.agentExists(w.agentGroup)
    requires !e.isMention && e == Collapsed(c, e) && e.thread != Some("")
    requires forall s :: s in steps ==> Consistent(s, c, w) && CollapsedTurn(s)
    ensures Engages(Run([], steps), c, e, w) <==>
      exists k :: 0 <= k < |steps| && AdmittedMention(steps[k], c, w, e.thread)
  {
    hide Engages, PassesGates, Run, Activates, AdmittedMention, Consistent, CollapsedTurn;
    StickyIffActivated(steps, c, w, e);
    forall k | 0 <= k < |steps|
      ensures Activates(steps[k], c, w, e.thread) <==> AdmittedMention(steps[k], c, w, e.thread)
    {
      assert steps[k] in steps;
      ActivatesIffAdmitted(steps[k], c, w, e.thread);
    }
  }

  /** Under the accumulate policy any earlier message of the thread is enough, a mention or not. */
  lemma StickyUnderAccumulate(steps: seq<Step>, c: Channel, w: Wiring, e: Event, k: nat)
    requires Sticky(c, w) && w.accumulate && c.adapter != None && c.ask.agentExists(w.agentGroup)
    requires !e.isMention && e == Collapsed(c, e) && e.thread != Some("")
    requires forall s :: s in steps ==> Consistent(s, c, w) && CollapsedTurn(s)
    requires k < |steps| && steps[k].Take? && steps[k].turn.channel == c && steps[k].turn.wiring == w
    requires steps[k].turn.event.thread == e.thread
    ensures Engages(Run([], steps), c, e, w)
  {
    hide Engages, Run;
    StickyIffActivated(steps, c, w, e);
    assert steps[k] in steps;
    StoredWithAdapter(c, w, e);
    assert Activates(steps[k], c, w, e.thread);
  }
}

/** The streaming translator of the inference proxy (tools/anthropic-shim.ts): OpenAI deltas
    come in, Anthropic stream events go out.

    Strings that the program only tests for truth ('' , null and a missing field behave alike)
    are plain strings here, with "" for all three. */
module AnthropicStream {
  import opened Wrappers

  // ------------------------------------------------------------------ input

  datatype ToolDelta = ToolDelta(index: int, id: string, name: string, args: string)

  /** reasoning is tested against null, so an empty fragment still counts as reasoning. */
  datatype Delta = Delta(reasoning: Option<string>, content: string, toolCalls: seq<ToolDelta>)

  datatype Chunk = Chunk(delta: Option<Delta>, finish: string)

  /** The separate things one chunk says, in the order the handler looks at them. */
  datatype Atom =
    | Reasoning(text: string)
    | Content(text: string)
    | ToolStart(index: int, id: string, name: string)
    | ToolArgs(index: int, json: string)
    | Finish(reason: string)

  function ToolAtoms(t: ToolDelta): seq<Atom> {
    (if t.id != "" then [ToolStart(t.index, t.id, t.name)] else []) +
    (if t.args != "" then [ToolArgs(t.index, t.args)] else [])
  }

  function ToolsAtoms(ts: seq<ToolDelta>): seq<Atom> {
    if ts == [] then [] else ToolsAtoms(ts[..|ts| - 1]) + ToolAtoms(ts[|ts| - 1])
  }

  /** A chunk without a delta is skipped whole, its finish reason included. */
  function ChunkAtoms(c: Chunk): seq<Atom> {
    if c.delta == None then [] else
    var d := c.delta.value;
    (if d.reasoning == None then [] else [Reasoning(d.reasoning.value)]) +
    (if d.content == "" then [] else [Content(d.content)]) +
    ToolsAtoms(d.toolCalls) +
    (if c.finish == "" then [] else [Finish(c.finish)])
  }

  function ChunksAtoms(cs: seq<Chunk>): seq<Atom> {
    if cs == [] then [] else ChunksAtoms(cs[..|cs| - 1]) + ChunkAtoms(cs[|cs| - 1])
  }

  // ----------------------------------------------------------------- output

  datatype Kind = KThinking | KText | KToolUse

  datatype Event =
    | MessageStart
    | BlockStart(index: nat, kind: Kind, id: string, name: string)
    | BlockDelta(index: nat, piece: Kind, text: string)
    | BlockStop(index: nat)
    | MessageDelta(stopReason: string)
    | MessageStop

  // -------------------------------------------------------- handler, as steps

  datatype ToolAccum = ToolAccum(id: string, name: string, args: string)

  datatype State = State(
    blockIndex: nat,
    inThinking: bool,
    inText: bool,
    inToolUse: bool,
    stopReason: string,
    tools: map<int, ToolAccum>,
    traceText: string,
    traceThinking: string,
    out: seq<Event>,
    failed: bool)

  const INITIAL := State(0, false, false, false, "end_turn", map[], "", "", [MessageStart], false)

  function Emit(s: State, e: Event): State {
    s.(out := s.out + [e])
  }

  function CloseThinking(s: State): State {
    if s.inThinking then Emit(s, BlockStop(s.blockIndex)).(blockIndex := s.blockIndex + 1, inThinking := false) else s
  }

  function CloseText(s: State): State {
    if s.inText then Emit(s, BlockStop(s.blockIndex)).(blockIndex := s.blockIndex + 1, inText := false) else s
  }

  function StopReasonOf(finish: string): string {
    if finish == "tool_calls" then "tool_use" else if finish == "length" then "max_tokens" else "end_turn"
  }

  /** Arguments for a call that never started dereference a missing accumulator: the handler
      throws and nothing more is emitted. */
  function Step(s: State, a: Atom): State {
    if s.failed then s else
    match a
    case Reasoning(t) =>
      var s1 := s.(traceThinking := s.traceThinking + t);
      var s2 :=
        if s1.inThinking then s1 else Emit(s1, BlockStart(s1.blockIndex, KThinking, "", "")).(inThinking := true);
      Emit(s2, BlockDelta(s2.blockIndex, KThinking, t))
    case Content(t) =>
      var s1 := CloseThinking(s.(traceText := s.traceText + t));
      var s2 := if s1.inText then s1 else Emit(s1, BlockStart(s1.blockIndex, KText, "", "")).(inText := true);
      Emit(s2, BlockDelta(s2.blockIndex, KText, t))
    case ToolStart(i, id, name) =>
      var s1 := CloseText(CloseThinking(s));
      Emit(s1.(tools := s1.tools[i := ToolAccum(id, name, "")]), BlockStart(s1.blockIndex, KToolUse, id, name))
        .(inToolUse := true)
    case ToolArgs(i, json) =>
      if i !in s.tools then s.(failed := true) else
      var t := s.tools[i];
      Emit(s.(tools := s.tools[i := t.(args := t.args + json)]), BlockDelta(s.blockIndex, KToolUse, json))
    case Finish(r) => s.(stopReason := StopReasonOf(r))
  }

  function Steps(s: State, atoms: seq<Atom>): State {
    if atoms == [] then s else Step(Steps(s, atoms[..|atoms| - 1]), atoms[|atoms| - 1])
  }

  /** After the last chunk; a stream that threw stops where it was. */
  function Close(s: State): State {
    if s.failed then s else
    var s1 := if s.inThinking || s.inText || s.inToolUse then Emit(s, BlockStop(s.blockIndex)) else s;
    Emit(Emit(s1, MessageDelta(s.stopReason)), MessageStop)
  }

  function Output(atoms: seq<Atom>): seq<Event> {
    Close(Steps(INITIAL, atoms)).out
  }

  lemma {:induction false} StepsConcat(s: State, a: seq<Atom>, b: seq<Atom>)
    ensures Steps(s, a + b) == Steps(Steps(s, a), b)
    decreases |b|
  {
    hide Step;
    if b == [] {
      assert a + b == a;
    } else {
      assert (a + b)[..|a + b| - 1] == a + b[..|b| - 1];
      StepsConcat(s, a, b[..|b| - 1]);
    }
  }

  // ------------------------------------------------------ handler, as a class

  lemma StepsOne(s: State, atoms: seq<Atom>)
    requires |atoms| <= 1
    ensures Steps(s, atoms) == if atoms == [] then s else Step(s, atoms[0])
  {
    hide Step;
    if atoms != [] {
      assert Steps(s, atoms[..0]) == s;
    }
  }

  lemma StepsSnoc(s: State, atoms: seq<Atom>, a: Atom)
    ensures Steps(s, atoms + [a]) == Step(Steps(s, atoms), a)
  {
    hide Step;
    assert (atoms + [a])[..|atoms + [a]| - 1] == atoms;
  }

  lemma StepNotFailed(s: State, a: Atom)
    ensures !a.ToolArgs? ==> Step(s, a).failed == s.failed
  {
  }

  lemma StepFailed(s: State, a: Atom)
    ensures s.failed ==> Step(s, a) == s
  {
  }

  lemma {:induction false} FailedStays(s: State, atoms: seq<Atom>)
    ensures s.failed ==> Steps(s, atoms) == s
  {
    if atoms != [] {
      FailedStays(s, atoms[..|atoms| - 1]);
    }
  }

  class StreamHandler {
    var blockIndex: nat
    var inThinking: bool
    var inText: bool
    var inToolUse: bool
    var stopReason: string
    var toolCallAccum: map<int, ToolAccum>
    var traceText: string
    var traceThinking: string
    var events: seq<Event>
    var threw: bool

    ghost function Now(): State
      reads this
    {
      State(
        blockIndex, inThinking, inText, inToolUse, stopReason, toolCallAccum, traceText, traceThinking, events, threw)
    }

    constructor ()
      ensures Now() == INITIAL
    {
      blockIndex, inThinking, inText, inToolUse, stopReason := 0, false, false, false, "end_turn";
      toolCallAccum, traceText, traceThinking, events, threw := map[], "", "", [MessageStart], false;
    }

    method EmitEvent(e: Event)
      modifies this`events
      ensures Now() == Emit(old(Now()), e)
    {
      events := events + [e];
    }

    method StopThinking()
      modifies this
      ensures Now() == CloseThinking(old(Now()))
    {
      if inThinking {
        EmitEvent(BlockStop(blockIndex));
        blockIndex := blockIndex + 1;
        inThinking := false;
      }
    }

    method OnReasoning(text: string)
      requires !threw
      modifies this
      ensures Now() == Step(old(Now()), Reasoning(text))
    {
      traceThinking := traceThinking + text;
      if !inThinking {
        inThinking := true;
        EmitEvent(BlockStart(blockIndex, KThinking, "", ""));
      }
      EmitEvent(BlockDelta(blockIndex, KThinking, text));
    }

    method OnContent(text: string)
      requires !threw
      modifies this
      ensures Now() == Step(old(Now()), Content(text))
    {
      traceText := traceText + text;
      StopThinking();
      if !inText {
        inText := true;
        EmitEvent(BlockStart(blockIndex, KText, "", ""));
      }
      EmitEvent(BlockDelta(blockIndex, KText, text));
    }

    method OnToolStart(index: int, id: string, name: string)
      requires !threw
      modifies this
      ensures Now() == Step(old(Now()), ToolStart(index, id, name))
    {
      StopThinking();
      if inText {
        EmitEvent(BlockStop(blockIndex));
        blockIndex := blockIndex + 1;
        inText := false;
      }
      toolCallAccum := toolCallAccum[index := ToolAccum(id, name, "")];
      EmitEvent(BlockStart(blockIndex, KToolUse, id, name));
      inToolUse := true;
    }

    method OnToolArgs(index: int, json: string)
      requires !threw
      modifies this
      ensures Now() == Step(old(Now()), ToolArgs(index, json))
    {
      if index !in toolCallAccum {
        threw := true;
        return;
      }
      var acc := toolCallAccum[index];
      toolCallAccum := toolCallAccum[index := acc.(args := acc.args + json)];
      EmitEvent(BlockDelta(blockIndex, KToolUse, json));
    }

    method OnFinish(reason: string)
      requires !threw
      modifies this
      ensures Now() == Step(old(Now()), Finish(reason))
    {
      if reason == "tool_calls" {
        stopReason := "tool_use";
      } else if reason == "length" {
        stopReason := "max_tokens";
      } else {
        stopReason := "end_turn";
      }
    }

    method OnToolDelta(t: ToolDelta)
      requires !threw
      modifies this
      ensures Now() == Steps(old(Now()), ToolAtoms(t))
    {
      hide Step, Steps;
      ghost var start := Now();
      ghost var done: seq<Atom> := [];
      StepsOne(start, []);
      if t.id != "" {
        OnToolStart(t.index, t.id, t.name);
        done := [ToolStart(t.index, t.id, t.name)];
        StepsOne(start, done);
        StepNotFailed(start, done[0]);
      }
      if t.args != "" {
        StepsSnoc(start, done, ToolArgs(t.index, t.args));
        done := done + [ToolArgs(t.index, t.args)];
        OnToolArgs(t.index, t.args);
      }
      assert ToolAtoms(t) == done;
    }

    method OnToolDeltas(ts: seq<ToolDelta>)
      modifies this
      ensures Now() == Steps(old(Now()), ToolsAtoms(ts))
    {
      hide Step, Steps, ToolAtoms;
      ghost var start := Now();
      StepsOne(start, []);
      for i := 0 to |ts|
        invariant Now() == Steps(start, ToolsAtoms(ts[..i]))
      {
        FailedStays(Now(), ToolAtoms(ts[i]));
        StepsConcat(start, ToolsAtoms(ts[..i]), ToolAtoms(ts[i]));
        assert ts[..i + 1][..i] == ts[..i];
        if !threw {
          OnToolDelta(ts[i]);
        }
      }
      assert ts[..|ts|] == ts;
    }

    /** One chunk changes the state and the event list exactly as its atoms do, one by one. */
    method OnChunk(c: Chunk)
      modifies this
      ensures Now() == Steps(old(Now()), ChunkAtoms(c))
    {
      hide Step, Steps, ToolsAtoms;
      ghost var start := Now();
      ghost var done: seq<Atom> := [];
      FailedStays(start, ChunkAtoms(c));
      StepsOne(start, []);
      if threw || c.delta == None {
        return;
      }
      var d := c.delta.value;
      if d.reasoning != None {
        StepsSnoc(start, done, Reasoning(d.reasoning.value));
        done := done + [Reasoning(d.reasoning.value)];
        OnReasoning(d.reasoning.value);
        StepNotFailed(start, Reasoning(d.reasoning.value));
      }
      if d.content != "" {
        StepsSnoc(start, done, Content(d.content));
        done := done + [Content(d.content)];
        StepNotFailed(Now(), Content(d.content));
        OnContent(d.content);
      }
      OnToolDeltas(d.toolCalls);
      StepsConcat(start, done, ToolsAtoms(d.toolCalls));
      done := done + ToolsAtoms(d.toolCalls);
      if c.finish != "" {
        StepsSnoc(start, done, Finish(c.finish));
        done := done + [Finish(c.finish)];
        if threw {
          StepFailed(Now(), Finish(c.finish));
        } else {
          OnFinish(c.finish);
        }
      }
      assert ChunkAtoms(c) == done;
    }

    method Finished()
      modifies this
      ensures Now() == Close(old(Now()))
    {
      if threw {
        return;
      }
      if inThinking || inText || inToolUse {
        EmitEvent(BlockStop(blockIndex));
      }
      EmitEvent(MessageDelta(stopReason));
      EmitEvent(MessageStop);
    }

    /** The whole read loop. */
    method Run(chunks: seq<Chunk>)
      requires Now() == INITIAL
      modifies this
      ensures events == Output(ChunksAtoms(chunks))
    {
      hide Step, ChunkAtoms;
      for i := 0 to |chunks|
        invariant Now() == Steps(INITIAL, ChunksAtoms(chunks[..i]))
      {
        OnChunk(chunks[i]);
        assert chunks[..i + 1][..i] == chunks[..i];
        StepsConcat(INITIAL, ChunksAtoms(chunks[..i]), ChunkAtoms(chunks[i]));
      }
      assert chunks[..|chunks|] == chunks;
      Finished();
    }
  }

  // ------------------------------------------------- well-formed event streams

  datatype Stage = Opening | Blocks | Ending | Done

  /** What a reader of the events knows: the next index, and the open block if any. */
  datatype Reader = Rejected | Reading(stage: Stage, next: nat, open: Option<Kind>)

  function Read(r: Reader, e: Event): Reader {
    if r.Rejected? then r else
    match e
    case MessageStart => if r.stage == Opening then r.(stage := Blocks) else Rejected
    case BlockStart(i, k, _, _) =>
      if r.stage == Blocks && r.open == None && i == r.next then r.(open := Some(k)) else Rejected
    case BlockDelta(i, k, _) => if r.stage == Blocks && r.open == Some(k) && i == r.next then r else Rejected
    case BlockStop(i) =>
      if r.stage == Blocks && r.open != None && i == r.next then r.(open := None, next := r.next + 1) else Rejected
    case MessageDelta(_) => if r.stage == Blocks && r.open == None then r.(stage := Ending) else Rejected
    case MessageStop => if r.stage == Ending then r.(stage := Done) else Rejected
  }

  function ReadAll(events: seq<Event>): Reader {
    if events == [] then Reading(Opening, 0, None) else Read(ReadAll(events[..|events| - 1]), events[|events| - 1])
  }

  /** message_start; blocks 0, 1, 2, … each with one start, only its own deltas and one stop
      before the next start; one message_delta; one message_stop. */
  predicate WellFormed(events: seq<Event>) {
    var r := ReadAll(events);
    r.Reading? && r.stage == Done
  }

  /** Where an ordered stream is: reasoning, then content, then one tool call. */
  datatype Phase = Thinking | Talking | Calling(index: int) | Disordered

  function Advance(p: Phase, a: Atom): Phase {
    match a
    case Reasoning(_) => if p.Thinking? then p else Disordered
    case Content(_) => if p.Thinking? || p.Talking? then Talking else Disordered
    case ToolStart(i, _, _) => if p.Thinking? || p.Talking? then Calling(i) else Disordered
    case ToolArgs(i, _) => if p == Calling(i) then p else Disordered
    case Finish(_) => p
  }

  function PhaseOf(atoms: seq<Atom>): Phase {
    if atoms == [] then Thinking else Advance(PhaseOf(atoms[..|atoms| - 1]), atoms[|atoms| - 1])
  }

  predicate PhaseOrdered(atoms: seq<Atom>) {
    !PhaseOf(atoms).Disordered?
  }

  lemma ReadEmit(events: seq<Event>, e: Event)
    ensures ReadAll(events + [e]) == Read(ReadAll(events), e)
  {
    assert (events + [e])[..|events + [e]| - 1] == events;
  }

  ghost function OpenKind(s: State): Option<Kind> {
    if s.inThinking then Some(KThinking) else if s.inText then Some(KText)
    else if s.inToolUse then Some(KToolUse) else None
  }

  ghost predicate InStep(s: State, p: Phase) {
    && !s.failed && !p.Disordered?
    && ReadAll(s.out) == Reading(Blocks, s.blockIndex, OpenKind(s))
    && (s.inText ==> p.Talking?) && (s.inThinking ==> p.Thinking?) && (s.inToolUse <==> p.Calling?)
    && (p.Talking? ==> s.inText)
    && s.tools.Keys == if p.Calling? then {p.index} else {}
  }

  /** The events a step appends, in order. */
  function StepEvents(s: State, a: Atom): seq<Event> {
    var stop := if s.inThinking then [BlockStop(s.blockIndex)] else [];
    var next := s.blockIndex + |stop|;
    if s.failed then [] else
    match a
    case Reasoning(t) =>
      (if s.inThinking then [] else [BlockStart(s.blockIndex, KThinking, "", "")]) +
      [BlockDelta(s.blockIndex, KThinking, t)]
    case Content(t) =>
      stop + (if s.inText then [] else [BlockStart(next, KText, "", "")]) + [BlockDelta(next, KText, t)]
    case ToolStart(_, id, name) =>
      var stop2 := if s.inText then [BlockStop(next)] else [];
      stop + stop2 + [BlockStart(next + |stop2|, KToolUse, id, name)]
    case ToolArgs(i, json) => if i in s.tools then [BlockDelta(s.blockIndex, KToolUse, json)] else []
    case Finish(_) => []
  }

  lemma Assoc(a: seq<Event>, b: seq<Event>, c: seq<Event>, d: seq<Event>)
    ensures a + b + c + d == a + (b + c + d)
  {
  }

  lemma StepAppendsAfterStop(s: State, a: Atom)
    requires !s.failed && (a.Content? || a.ToolStart?)
    ensures Step(s, a).out == s.out + StepEvents(s, a)
  {
    var stop := if s.inThinking then [BlockStop(s.blockIndex)] else [];
    var next := s.blockIndex + |stop|;
    assert CloseThinking(s).out == s.out + stop;
    if a.Content? {
      Assoc(s.out, stop, if s.inText then [] else [BlockStart(next, KText, "", "")], [BlockDelta(next, KText, a.text)]);
    } else {
      var stop2 := if s.inText then [BlockStop(next)] else [];
      Assoc(s.out, stop, stop2, [BlockStart(next + |stop2|, KToolUse, a.id, a.name)]);
    }
  }

  lemma StepAppends(s: State, a: Atom)
    ensures Step(s, a).out == s.out + StepEvents(s, a)
  {
    if s.failed || a.Finish? || (a.ToolArgs? && a.index !in s.tools) {
      assert s.out + [] == s.out;
    } else if a.Content? || a.ToolStart? {
      StepAppendsAfterStop(s, a);
    }
  }

  /** Up to three events, read one after the other. */
  lemma ReadUpTo3(events: seq<Event>, more: seq<Event>)
    requires |more| <= 3
    ensures ReadAll(events + more) ==
      if more == [] then ReadAll(events)
      else if |more| == 1 then Read(ReadAll(events), more[0])
      else if |more| == 2 then Read(Read(ReadAll(events), more[0]), more[1])
      else Read(Read(Read(ReadAll(events), more[0]), more[1]), more[2])
  {
    hide ReadAll, Read;
    if more == [] {
      assert events + more == events;
    } else if |more| == 1 {
      assert events + more == events + [more[0]];
    } else if |more| == 2 {
      assert events + more == events + [more[0]] + [more[1]];
    } else {
      assert events + more == events + [more[0]] + [more[1]] + [more[2]];
    }
    forall es: seq<Event>, e ensures ReadAll(es + [e]) == Read(ReadAll(es), e) {
      ReadEmit(es, e);
    }
  }

  lemma OrderedStep(s: State, p: Phase, a: Atom)
    requires InStep(s, p) && !Advance(p, a).Disordered?
    ensures InStep(Step(s, a), Advance(p, a))
  {
    hide ReadAll;
    StepAppends(s, a);
    ReadUpTo3(s.out, StepEvents(s, a));
  }

  /** The reader has given up, or the handler has thrown: neither is ever undone. */
  ghost predicate Lost(s: State) {
    s.failed || ReadAll(s.out).Rejected?
  }

  lemma DisorderIsSeen(s: State, p: Phase, a: Atom)
    requires InStep(s, p) && Advance(p, a).Disordered?
    ensures Lost(Step(s, a))
  {
    hide ReadAll;
    StepAppends(s, a);
    ReadUpTo3(s.out, StepEvents(s, a));
  }

  lemma LostStays(s: State, a: Atom)
    requires Lost(s)
    ensures Lost(Step(s, a))
  {
    hide ReadAll;
    StepAppends(s, a);
    ReadUpTo3(s.out, StepEvents(s, a));
  }

  lemma ReadOpening()
    ensures ReadAll([MessageStart]) == Reading(Blocks, 0, None)
  {
    ReadEmit([], MessageStart);
    assert [] + [MessageStart] == [MessageStart];
    assert ReadAll([]) == Reading(Opening, 0, None);
  }

  lemma DisorderStays(p: Phase, a: Atom)
    requires p.Disordered?
    ensures Advance(p, a).Disordered?
  {
  }

  lemma {:induction false} FollowPhases(atoms: seq<Atom>)
    ensures var s := Steps(INITIAL, atoms); var p := PhaseOf(atoms);
      if p.Disordered? then Lost(s) else InStep(s, p)
  {
    hide Step, Advance, ReadAll;
    if atoms == [] {
      ReadOpening();
    } else {
      var init, a := atoms[..|atoms| - 1], atoms[|atoms| - 1];
      FollowPhases(init);
      var s, p := Steps(INITIAL, init), PhaseOf(init);
      if p.Disordered? {
        LostStays(s, a);
        DisorderStays(p, a);
      } else if Advance(p, a).Disordered? {
        DisorderIsSeen(s, p, a);
      } else {
        OrderedStep(s, p, a);
      }
    }
  }

  function CloseEvents(s: State): seq<Event> {
    (if s.inThinking || s.inText || s.inToolUse then [BlockStop(s.blockIndex)] else []) +
    [MessageDelta(s.stopReason), MessageStop]
  }

  lemma CloseAppends(s: State)
    requires !s.failed
    ensures Close(s) == s.(out := s.out + CloseEvents(s))
  {
  }

  lemma NeverDone(s: State, a: Atom)
    requires var r := ReadAll(s.out); r.Rejected? || r.stage == Blocks
    ensures var r := ReadAll(Step(s, a).out); r.Rejected? || r.stage == Blocks
  {
    hide ReadAll;
    StepAppends(s, a);
    ReadUpTo3(s.out, StepEvents(s, a));
  }

  /** Before it is closed a stream is not finished. */
  lemma {:induction false} NotDone(atoms: seq<Atom>)
    ensures var r := ReadAll(Steps(INITIAL, atoms).out); r.Rejected? || r.stage == Blocks
  {
    hide ReadAll, Step;
    if atoms == [] {
      ReadOpening();
    } else {
      NotDone(atoms[..|atoms| - 1]);
      NeverDone(Steps(INITIAL, atoms[..|atoms| - 1]), atoms[|atoms| - 1]);
    }
  }

  /** The events are well formed exactly for phase-ordered streams, whatever the chunks say. */
  lemma WellFormedIffPhaseOrdered(atoms: seq<Atom>)
    ensures WellFormed(Output(atoms)) <==> PhaseOrdered(atoms)
  {
    hide ReadAll, Steps, PhaseOf;
    var s := Steps(INITIAL, atoms);
    FollowPhases(atoms);
    NotDone(atoms);
    if !s.failed {
      CloseAppends(s);
      ReadUpTo3(s.out, CloseEvents(s));
    }
  }

  // --------------------------------------------------------- the accumulators

  function ReasoningOf(atoms: seq<Atom>): string {
    if atoms == [] then "" else
    ReasoningOf(atoms[..|atoms| - 1]) + if atoms[|atoms| - 1].Reasoning? then atoms[|atoms| - 1].text else ""
  }

  function ContentOf(atoms: seq<Atom>): string {
    if atoms == [] then "" else
    ContentOf(atoms[..|atoms| - 1]) + if atoms[|atoms| - 1].Content? then atoms[|atoms| - 1].text else ""
  }

  function ArgsStep(before: string, a: Atom, i: int): string {
    if a.ToolStart? && a.index == i then ""
    else if a.ToolArgs? && a.index == i then before + a.json
    else before
  }

  /** The arguments received for call i since it last started. */
  function ArgsOf(atoms: seq<Atom>, i: int): string {
    if atoms == [] then "" else
    ArgsStep(ArgsOf(atoms[..|atoms| - 1], i), atoms[|atoms| - 1], i)
  }

  /** The finish reason given last. */
  function FinishOf(atoms: seq<Atom>): string {
    if atoms == [] then "" else
    if atoms[|atoms| - 1].Finish? then atoms[|atoms| - 1].reason else FinishOf(atoms[..|atoms| - 1])
  }

  ghost predicate Accumulated(s: State, atoms: seq<Atom>) {
    && s.traceThinking == ReasoningOf(atoms)
    && s.traceText == ContentOf(atoms)
    && s.stopReason == StopReasonOf(FinishOf(atoms))
    && forall i :: i in s.tools ==> s.tools[i].args == ArgsOf(atoms, i)
  }

  lemma AtomsSnoc(atoms: seq<Atom>, a: Atom)
    ensures ReasoningOf(atoms + [a]) == if a.Reasoning? then ReasoningOf(atoms) + a.text else ReasoningOf(atoms)
    ensures ContentOf(atoms + [a]) == if a.Content? then ContentOf(atoms) + a.text else ContentOf(atoms)
    ensures FinishOf(atoms + [a]) == if a.Finish? then a.reason else FinishOf(atoms)
    ensures forall i :: ArgsOf(atoms + [a], i) == ArgsStep(ArgsOf(atoms, i), a, i)
  {
    assert (atoms + [a])[..|atoms + [a]| - 1] == atoms;
    assert ReasoningOf(atoms) + "" == ReasoningOf(atoms) && ContentOf(atoms) + "" == ContentOf(atoms);
  }

  lemma OneMoreAccumulated(s: State, atoms: seq<Atom>, a: Atom)
    requires Accumulated(s, atoms) && !Step(s, a).failed
    ensures Accumulated(Step(s, a), atoms + [a])
  {
    hide ReasoningOf, ContentOf, ArgsOf, FinishOf;
    AtomsSnoc(atoms, a);
    match a {
      case Reasoning(_) =>
      case Content(_) =>
      case ToolStart(_, _, _) =>
      case ToolArgs(_, _) =>
      case Finish(_) =>
    }
  }

  lemma NothingAccumulated()
    ensures Accumulated(INITIAL, [])
  {
  }

  /** In any order of deltas, a handler that did not throw has accumulated exactly the
      fragments it was sent. */
  lemma {:induction false} AccumulatorsAreConcatenations(atoms: seq<Atom>)
    requires !Steps(INITIAL, atoms).failed
    ensures Accumulated(Steps(INITIAL, atoms), atoms)
  {
    hide Step, ReasoningOf, ContentOf, ArgsOf, FinishOf;
    if atoms == [] {
      NothingAccumulated();
    } else {
      var init, a := atoms[..|atoms| - 1], atoms[|atoms| - 1];
      StepFailed(Steps(INITIAL, init), a);
      AccumulatorsAreConcatenations(init);
      OneMoreAccumulated(Steps(INITIAL, init), init, a);
      assert atoms == init + [a];
    }
  }
}

/** Streaming and then assembling against translating the whole response (tools/anthropic-shim.ts): what the
    chunks of a stream spell out, what the assembler makes of the events sent for them, and how that
    compares with the buffered translation and with the trace. */
module AnthropicRefinement {
  import opened AnthropicMessage
  import opened AnthropicStream
  import opened Wrappers

  // -------------------------------------------- the whole response of a stream

  /** A start opens a call, arguments extend the last one. */
  function CallsStep(cs: seq<ToolCall>, a: Atom): seq<ToolCall> {
    if a.ToolStart? then cs + [ToolCall(a.id, a.name, "")]
    else if a.ToolArgs? && cs != [] then cs[|cs| - 1 := cs[|cs| - 1].(args := cs[|cs| - 1].args + a.json)]
    else cs
  }

  /** The tool calls a stream spells out. */
  function CallsOf(atoms: seq<Atom>): seq<ToolCall> {
    if atoms == [] then [] else CallsStep(CallsOf(atoms[..|atoms| - 1]), atoms[|atoms| - 1])
  }

  /** The response whose fragments these are; its buffered reasoning field is not among them. */
  function Whole(atoms: seq<Atom>, reasoningContent: string): Response {
    Response(ReasoningOf(atoms), reasoningContent, ContentOf(atoms), CallsOf(atoms), FinishOf(atoms))
  }

  predicate HasReasoning(atoms: seq<Atom>) {
    atoms != [] && (atoms[|atoms| - 1].Reasoning? || HasReasoning(atoms[..|atoms| - 1]))
  }

  /** What the chunk reader guarantees about every atom. */
  predicate Proper(a: Atom) {
    && (a.Content? ==> a.text != "")
    && (a.ToolStart? ==> a.id != "")
  }

  lemma {:induction false} ToolsAtomsAreProper(ts: seq<ToolDelta>)
    ensures forall a :: a in ToolsAtoms(ts) ==> Proper(a)
  {
    if ts != [] {
      ToolsAtomsAreProper(ts[..|ts| - 1]);
    }
  }

  lemma {:induction false} ChunkAtomsAreProper(cs: seq<Chunk>)
    ensures forall a :: a in ChunksAtoms(cs) ==> Proper(a)
  {
    if cs != [] {
      ChunkAtomsAreProper(cs[..|cs| - 1]);
      var c := cs[|cs| - 1];
      if c.delta != None {
        ToolsAtomsAreProper(c.delta.value.toolCalls);
      }
    }
  }

  // ----------------------------------------------- the same, read off the chunks

  function ReasoningIn(cs: seq<Chunk>): string {
    if cs == [] then "" else
    var d := cs[|cs| - 1].delta;
    ReasoningIn(cs[..|cs| - 1]) + if d != None && d.value.reasoning != None then d.value.reasoning.value else ""
  }

  function ContentIn(cs: seq<Chunk>): string {
    if cs == [] then "" else
    var d := cs[|cs| - 1].delta;
    ContentIn(cs[..|cs| - 1]) + if d != None then d.value.content else ""
  }

  /** All entries for tool calls, in order. */
  function EntriesIn(cs: seq<Chunk>): seq<ToolDelta> {
    if cs == [] then [] else
    var d := cs[|cs| - 1].delta;
    EntriesIn(cs[..|cs| - 1]) + if d != None then d.value.toolCalls else []
  }

  /** More arguments for the call opened last. */
  function Extend(cs: seq<ToolCall>, json: string): seq<ToolCall> {
    if cs == [] then [] else cs[..|cs| - 1] + [cs[|cs| - 1].(args := cs[|cs| - 1].args + json)]
  }

  /** An entry with an id opens a call, one without extends the call opened last. */
  function CallsFrom(ts: seq<ToolDelta>): seq<ToolCall> {
    if ts == [] then [] else
    var cs, t := CallsFrom(ts[..|ts| - 1]), ts[|ts| - 1];
    if t.id != "" then cs + [ToolCall(t.id, t.name, t.args)] else Extend(cs, t.args)
  }

  /** The arguments for one index since an entry with an id last opened it. */
  function ArgsFrom(ts: seq<ToolDelta>, i: int): string {
    if ts == [] then "" else
    var t := ts[|ts| - 1];
    if t.index != i then ArgsFrom(ts[..|ts| - 1], i)
    else if t.id != "" then t.args
    else ArgsFrom(ts[..|ts| - 1], i) + t.args
  }

  /** The finish reason given last, by a chunk that has a delta. */
  function FinishIn(cs: seq<Chunk>): string {
    if cs == [] then "" else
    var c := cs[|cs| - 1];
    if c.delta != None && c.finish != "" then c.finish else FinishIn(cs[..|cs| - 1])
  }

  predicate AnnouncesReasoning(cs: seq<Chunk>) {
    exists c :: c in cs && c.delta != None && c.delta.value.reasoning != None
  }

  lemma SaidSnoc(atoms: seq<Atom>, a: Atom)
    ensures CallsOf(atoms + [a]) == CallsStep(CallsOf(atoms), a)
    ensures HasReasoning(atoms + [a]) <==> HasReasoning(atoms) || a.Reasoning?
  {
    assert (atoms + [a])[..|atoms + [a]| - 1] == atoms;
  }

  lemma OpensSaid(atoms: seq<Atom>, i: int, id: string, name: string)
    ensures var all := atoms + [ToolStart(i, id, name)];
      && ReasoningOf(all) == ReasoningOf(atoms) && ContentOf(all) == ContentOf(atoms)
      && FinishOf(all) == FinishOf(atoms) && HasReasoning(all) == HasReasoning(atoms)
      && CallsOf(all) == CallsOf(atoms) + [ToolCall(id, name, "")]
      && forall k :: ArgsOf(all, k) == if k == i then "" else ArgsOf(atoms, k)
  {
    hide ReasoningOf, ContentOf, FinishOf, HasReasoning, CallsOf, ArgsOf;
    AtomsSnoc(atoms, ToolStart(i, id, name));
    SaidSnoc(atoms, ToolStart(i, id, name));
  }

  lemma ExtendsSaid(atoms: seq<Atom>, i: int, json: string)
    ensures var all := atoms + [ToolArgs(i, json)];
      && ReasoningOf(all) == ReasoningOf(atoms) && ContentOf(all) == ContentOf(atoms)
      && FinishOf(all) == FinishOf(atoms) && HasReasoning(all) == HasReasoning(atoms)
      && CallsOf(all) == Extend(CallsOf(atoms), json)
      && forall k :: ArgsOf(all, k) == if k == i then ArgsOf(atoms, k) + json else ArgsOf(atoms, k)
  {
    hide ReasoningOf, ContentOf, FinishOf, HasReasoning, CallsOf, ArgsOf;
    AtomsSnoc(atoms, ToolArgs(i, json));
    SaidSnoc(atoms, ToolArgs(i, json));
  }

  lemma FromSnoc(ts: seq<ToolDelta>, t: ToolDelta)
    ensures CallsFrom(ts + [t]) ==
      if t.id != "" then CallsFrom(ts) + [ToolCall(t.id, t.name, t.args)] else Extend(CallsFrom(ts), t.args)
    ensures forall k :: (
      ArgsFrom(ts + [t], k) ==
        if k != t.index then ArgsFrom(ts, k) else if t.id != "" then t.args else ArgsFrom(ts, k) + t.args)
  {
    assert (ts + [t])[..|ts + [t]| - 1] == ts;
  }

  lemma ExtendLast(cs: seq<ToolCall>, c: ToolCall, json: string)
    ensures Extend(cs + [c], json) == cs + [c.(args := c.args + json)]
    ensures Extend(cs, "") == cs
  {
    assert (cs + [c])[..|cs + [c]| - 1] == cs;
    if cs != [] {
      assert cs[|cs| - 1].args + "" == cs[|cs| - 1].args;
      assert Extend(cs, "") == cs[..|cs| - 1] + [cs[|cs| - 1]];
    }
  }

  /** The atoms of one entry leave everything but calls and arguments alone. */
  lemma OneEntrySaid(atoms: seq<Atom>, ts: seq<ToolDelta>, t: ToolDelta)
    requires CallsOf(atoms) == CallsFrom(ts) && forall i :: ArgsOf(atoms, i) == ArgsFrom(ts, i)
    ensures var all := atoms + ToolAtoms(t);
      && ReasoningOf(all) == ReasoningOf(atoms) && ContentOf(all) == ContentOf(atoms)
      && FinishOf(all) == FinishOf(atoms) && HasReasoning(all) == HasReasoning(atoms)
      && CallsOf(all) == CallsFrom(ts + [t])
      && forall i :: ArgsOf(all, i) == ArgsFrom(ts + [t], i)
  {
    hide ReasoningOf, ContentOf, FinishOf, HasReasoning, CallsOf, ArgsOf, CallsFrom, ArgsFrom, Extend;
    var begun := atoms + if t.id != "" then [ToolStart(t.index, t.id, t.name)] else [];
    assert atoms + ToolAtoms(t) == begun + if t.args != "" then [ToolArgs(t.index, t.args)] else [];
    OpensSaid(atoms, t.index, t.id, t.name);
    ExtendsSaid(begun, t.index, t.args);
    FromSnoc(ts, t);
    ExtendLast(CallsFrom(ts), ToolCall(t.id, t.name, ""), t.args);
    assert "" + t.args == t.args;
    if t.id == "" {
      assert begun == atoms;
    }
    if t.args == "" {
      assert begun + [] == begun;
      assert ArgsFrom(ts, t.index) + "" == ArgsFrom(ts, t.index);
    }
  }

  lemma {:induction false} EntriesSaid(atoms: seq<Atom>, before: seq<ToolDelta>, ts: seq<ToolDelta>)
    requires CallsOf(atoms) == CallsFrom(before) && forall i :: ArgsOf(atoms, i) == ArgsFrom(before, i)
    ensures var all := atoms + ToolsAtoms(ts);
      && ReasoningOf(all) == ReasoningOf(atoms) && ContentOf(all) == ContentOf(atoms)
      && FinishOf(all) == FinishOf(atoms) && HasReasoning(all) == HasReasoning(atoms)
      && CallsOf(all) == CallsFrom(before + ts)
      && forall i :: ArgsOf(all, i) == ArgsFrom(before + ts, i)
    decreases |ts|
  {
    hide ReasoningOf, ContentOf, FinishOf, HasReasoning, CallsOf, ArgsOf, CallsFrom, ArgsFrom, ToolAtoms;
    if ts == [] {
      assert atoms + ToolsAtoms(ts) == atoms && before + ts == before;
    } else {
      var init, t := ts[..|ts| - 1], ts[|ts| - 1];
      EntriesSaid(atoms, before, init);
      OneEntrySaid(atoms + ToolsAtoms(init), before + init, t);
      assert atoms + ToolsAtoms(ts) == atoms + ToolsAtoms(init) + ToolAtoms(t);
      assert before + ts == before + init + [t];
    }
  }

  /** These atoms say what these chunks say. */
  ghost predicate Says(atoms: seq<Atom>, cs: seq<Chunk>) {
    && ReasoningOf(atoms) == ReasoningIn(cs)
    && ContentOf(atoms) == ContentIn(cs)
    && FinishOf(atoms) == FinishIn(cs)
    && CallsOf(atoms) == CallsFrom(EntriesIn(cs))
    && (forall i :: ArgsOf(atoms, i) == ArgsFrom(EntriesIn(cs), i))
    && (HasReasoning(atoms) <==> AnnouncesReasoning(cs))
  }

  lemma ChunksSnoc(cs: seq<Chunk>, c: Chunk)
    ensures AnnouncesReasoning(cs + [c]) <==>
      AnnouncesReasoning(cs) || (c.delta != None && c.delta.value.reasoning != None)
    ensures ReasoningIn(cs + [c]) ==
      ReasoningIn(cs) + if c.delta != None && c.delta.value.reasoning != None then c.delta.value.reasoning.value else ""
    ensures ContentIn(cs + [c]) == ContentIn(cs) + if c.delta != None then c.delta.value.content else ""
    ensures EntriesIn(cs + [c]) == EntriesIn(cs) + if c.delta != None then c.delta.value.toolCalls else []
    ensures FinishIn(cs + [c]) == if c.delta != None && c.finish != "" then c.finish else FinishIn(cs)
  {
    assert (cs + [c])[..|cs + [c]| - 1] == cs;
    assert c in cs + [c] && forall d :: d in cs ==> d in cs + [c];
  }

  /** An atom that may be missing and is not about tools. */
  lemma AtMostOneAtomSaid(atoms: seq<Atom>, more: seq<Atom>)
    requires |more| <= 1 && forall a :: a in more ==> !a.ToolStart? && !a.ToolArgs?
    ensures var all := atoms + more;
      && ReasoningOf(all) ==
           (if more != [] && more[0].Reasoning? then ReasoningOf(atoms) + more[0].text else ReasoningOf(atoms))
      && ContentOf(all) ==
           (if more != [] && more[0].Content? then ContentOf(atoms) + more[0].text else ContentOf(atoms))
      && FinishOf(all) == (if more != [] && more[0].Finish? then more[0].reason else FinishOf(atoms))
      && CallsOf(all) == CallsOf(atoms)
      && (forall i :: ArgsOf(all, i) == ArgsOf(atoms, i))
      && (HasReasoning(all) <==> HasReasoning(atoms) || (more != [] && more[0].Reasoning?))
  {
    hide ReasoningOf, ContentOf, FinishOf, HasReasoning, CallsOf, ArgsOf;
    if more == [] {
      assert atoms + more == atoms;
    } else {
      assert more == [more[0]] && more[0] in more;
      AtomsSnoc(atoms, more[0]);
      SaidSnoc(atoms, more[0]);
    }
  }

  lemma Regroup(a: seq<Atom>, r: seq<Atom>, c: seq<Atom>, t: seq<Atom>, f: seq<Atom>)
    ensures a + (r + c + t + f) == a + r + c + t + f
  {
  }

  lemma LeadSaid(atoms: seq<Atom>, r: seq<Atom>, c: seq<Atom>, d: Delta)
    requires r == (if d.reasoning == None then [] else [Reasoning(d.reasoning.value)])
    requires c == (if d.content == "" then [] else [Content(d.content)])
    ensures var all := atoms + r + c;
      && ReasoningOf(all) == ReasoningOf(atoms) + (if d.reasoning != None then d.reasoning.value else "")
      && ContentOf(all) == ContentOf(atoms) + d.content
      && FinishOf(all) == FinishOf(atoms) && CallsOf(all) == CallsOf(atoms)
      && (forall i :: ArgsOf(all, i) == ArgsOf(atoms, i))
      && (HasReasoning(all) <==> HasReasoning(atoms) || d.reasoning != None)
  {
    hide ReasoningOf, ContentOf, FinishOf, HasReasoning, CallsOf, ArgsOf;
    AtMostOneAtomSaid(atoms, r);
    AtMostOneAtomSaid(atoms + r, c);
    assert ReasoningOf(atoms) + "" == ReasoningOf(atoms) && ContentOf(atoms) + "" == ContentOf(atoms);
  }

  lemma DeltaSaid(atoms: seq<Atom>, before: seq<ToolDelta>, d: Delta, finish: string)
    requires CallsOf(atoms) == CallsFrom(before) && forall i :: ArgsOf(atoms, i) == ArgsFrom(before, i)
    ensures var all := atoms + ChunkAtoms(Chunk(Some(d), finish));
      && ReasoningOf(all) == ReasoningOf(atoms) + (if d.reasoning != None then d.reasoning.value else "")
      && ContentOf(all) == ContentOf(atoms) + d.content
      && FinishOf(all) == (if finish != "" then finish else FinishOf(atoms))
      && CallsOf(all) == CallsFrom(before + d.toolCalls)
      && (forall i :: ArgsOf(all, i) == ArgsFrom(before + d.toolCalls, i))
      && (HasReasoning(all) <==> HasReasoning(atoms) || d.reasoning != None)
  {
    hide ReasoningOf, ContentOf, FinishOf, HasReasoning, CallsOf, ArgsOf, CallsFrom, ArgsFrom, ToolsAtoms;
    var r := if d.reasoning == None then [] else [Reasoning(d.reasoning.value)];
    var c := if d.content == "" then [] else [Content(d.content)];
    var t := ToolsAtoms(d.toolCalls);
    var f := if finish == "" then [] else [Finish(finish)];
    assert ChunkAtoms(Chunk(Some(d), finish)) == r + c + t + f;
    hide ChunkAtoms;
    Regroup(atoms, r, c, t, f);
    LeadSaid(atoms, r, c, d);
    EntriesSaid(atoms + r + c, before, d.toolCalls);
    AtMostOneAtomSaid(atoms + r + c + t, f);
  }

  lemma NoDelta(c: Chunk)
    requires c.delta == None
    ensures ChunkAtoms(c) == []
  {
  }

  lemma OneChunkSays(atoms: seq<Atom>, cs: seq<Chunk>, c: Chunk)
    requires Says(atoms, cs)
    ensures Says(atoms + ChunkAtoms(c), cs + [c])
  {
    hide ReasoningOf, ContentOf, FinishOf, HasReasoning, CallsOf, ArgsOf, CallsFrom, ArgsFrom, ChunkAtoms;
    hide ReasoningIn, ContentIn, FinishIn, EntriesIn, AnnouncesReasoning;
    ChunksSnoc(cs, c);
    if c.delta == None {
      NoDelta(c);
      assert atoms + [] == atoms && EntriesIn(cs) + [] == EntriesIn(cs);
      assert ReasoningIn(cs) + "" == ReasoningIn(cs) && ContentIn(cs) + "" == ContentIn(cs);
    } else {
      assert c == Chunk(Some(c.delta.value), c.finish);
      DeltaSaid(atoms, EntriesIn(cs), c.delta.value, c.finish);
    }
  }

  lemma NothingSaid()
    ensures Says([], [])
  {
  }

  /** However the chunks cut a response, several entries to a chunk or one call over several: the handler's
      steps say what the chunks say. */
  lemma {:induction false} ChunksSay(cs: seq<Chunk>)
    ensures Says(ChunksAtoms(cs), cs)
  {
    hide Says, ChunkAtoms;
    if cs == [] {
      NothingSaid();
    } else {
      var init, c := cs[..|cs| - 1], cs[|cs| - 1];
      ChunksSay(init);
      OneChunkSays(ChunksAtoms(init), init, c);
      assert init + [c] == cs;
    }
  }

  // ------------------------------------------------------------- refinement

  /** The blocks an assembler holds when the handler stands here. */
  function Held(saw: bool, thinking: string, text: string, calls: seq<ToolCall>): seq<Option<Block<string>>> {
    (if saw then [Some(ThinkingBlock(thinking))] else []) +
    (if text != "" then [Some(TextBlock(text))] else []) +
    seq(|calls|, n requires 0 <= n < |calls| => Some(ToolUseBlock(calls[n].id, calls[n].name, calls[n].args)))
  }

  function AccumOf(c: ToolCall): ToolAccum {
    ToolAccum(c.id, c.name, c.args)
  }

  ghost predicate Mirrors(s: State, p: Phase, saw: bool, calls: seq<ToolCall>) {
    && !p.Disordered? && !s.failed
    && AbsorbAll(s.out) == Assembly(Held(saw, s.traceThinking, s.traceText, calls), None)
    && (s.inThinking <==> p.Thinking? && saw) && (s.inText <==> p.Talking?) && (s.inToolUse <==> p.Calling?)
    && (!saw ==> s.traceThinking == "") && (p.Thinking? ==> s.traceText == "") && (p.Talking? ==> s.traceText != "")
    && |calls| == (if p.Calling? then 1 else 0)
    && s.blockIndex == (if saw && !p.Thinking? then 1 else 0) + (if s.traceText != "" && p.Calling? then 1 else 0)
    && s.tools == if p.Calling? then map[p.index := AccumOf(calls[0])] else map[]
  }

  lemma AbsorbEmit(events: seq<Event>, e: Event)
    ensures AbsorbAll(events + [e]) == Absorb(AbsorbAll(events), e)
  {
    assert (events + [e])[..|events + [e]| - 1] == events;
  }

  lemma AbsorbUpTo3(events: seq<Event>, more: seq<Event>)
    requires |more| <= 3
    ensures AbsorbAll(events + more) ==
      if more == [] then AbsorbAll(events)
      else if |more| == 1 then Absorb(AbsorbAll(events), more[0])
      else if |more| == 2 then Absorb(Absorb(AbsorbAll(events), more[0]), more[1])
      else Absorb(Absorb(Absorb(AbsorbAll(events), more[0]), more[1]), more[2])
  {
    hide AbsorbAll, Absorb;
    if more == [] {
      assert events + more == events;
    } else if |more| == 1 {
      assert events + more == events + [more[0]];
    } else if |more| == 2 {
      assert events + more == events + [more[0]] + [more[1]];
    } else {
      assert events + more == events + [more[0]] + [more[1]] + [more[2]];
    }
    forall es: seq<Event>, e ensures AbsorbAll(es + [e]) == Absorb(AbsorbAll(es), e) {
      AbsorbEmit(es, e);
    }
  }

  lemma MirrorReasoning(s: State, p: Phase, saw: bool, calls: seq<ToolCall>, a: Atom)
    requires Mirrors(s, p, saw, calls) && Proper(a) && !Advance(p, a).Disordered? && a.Reasoning?
    ensures Mirrors(Step(s, a), Advance(p, a), saw || a.Reasoning?, CallsStep(calls, a))
  {
    hide AbsorbAll;
    StepAppends(s, a);
    AbsorbUpTo3(s.out, StepEvents(s, a));
    var held := Held(saw, s.traceThinking, s.traceText, calls);
    var held' := Held(saw || a.Reasoning?, Step(s, a).traceThinking, Step(s, a).traceText, CallsStep(calls, a));
    assert held' == [Some(ThinkingBlock(s.traceThinking + a.text))];
    assert held == if saw then [Some(ThinkingBlock(s.traceThinking))] else [];
  }

  /** With no call yet, and after more text. */
  lemma HeldText(saw: bool, thinking: string, text: string, more: string)
    requires more != ""
    ensures
      var start: seq<Option<Block<string>>> := if saw then [Some(ThinkingBlock(thinking))] else [];
      && Held(saw, thinking, text, []) == start + (if text != "" then [Some(TextBlock(text))] else [])
      && Held(saw, thinking, text + more, []) == start + [Some(TextBlock(text + more))]
  {
  }

  lemma MirrorContent(s: State, p: Phase, saw: bool, calls: seq<ToolCall>, a: Atom)
    requires Mirrors(s, p, saw, calls) && Proper(a) && !Advance(p, a).Disordered? && a.Content?
    ensures Mirrors(Step(s, a), Advance(p, a), saw || a.Reasoning?, CallsStep(calls, a))
  {
    hide AbsorbAll, Held;
    StepAppends(s, a);
    AbsorbUpTo3(s.out, StepEvents(s, a));
    HeldText(saw, s.traceThinking, s.traceText, a.text);
    assert calls == [] && CallsStep(calls, a) == [];
  }

  lemma HeldFirstCall(saw: bool, thinking: string, text: string, c: ToolCall)
    ensures var held := Held(saw, thinking, text, []);
      && |held| == (if saw then 1 else 0) + (if text != "" then 1 else 0)
      && Held(saw, thinking, text, [c]) == held + [Some(ToolUseBlock(c.id, c.name, c.args))]
  {
  }

  lemma MirrorToolStart(s: State, p: Phase, saw: bool, calls: seq<ToolCall>, a: Atom)
    requires Mirrors(s, p, saw, calls) && Proper(a) && !Advance(p, a).Disordered? && a.ToolStart?
    ensures Mirrors(Step(s, a), Advance(p, a), saw || a.Reasoning?, CallsStep(calls, a))
  {
    hide AbsorbAll, Held;
    StepAppends(s, a);
    AbsorbUpTo3(s.out, StepEvents(s, a));
    HeldFirstCall(saw, s.traceThinking, s.traceText, ToolCall(a.id, a.name, ""));
    assert calls == [] && CallsStep(calls, a) == [ToolCall(a.id, a.name, "")];
  }

  lemma HeldLastCall(saw: bool, thinking: string, text: string, c: ToolCall, more: string)
    ensures var held := Held(saw, thinking, text, [c]);
      && |held| == (if saw then 1 else 0) + (if text != "" then 1 else 0) + 1
      && held[|held| - 1] == Some(ToolUseBlock(c.id, c.name, c.args))
      && Held(saw, thinking, text, [c.(args := c.args + more)])
         == held[|held| - 1 := Some(ToolUseBlock(c.id, c.name, c.args + more))]
  {
    var start := Held(saw, thinking, text, []);
    var c' := c.(args := c.args + more);
    assert Held(saw, thinking, text, [c]) == start + [Some(ToolUseBlock(c.id, c.name, c.args))];
    assert Held(saw, thinking, text, [c']) == start + [Some(ToolUseBlock(c.id, c.name, c'.args))];
  }

  lemma MirrorToolArgs(s: State, p: Phase, saw: bool, calls: seq<ToolCall>, a: Atom)
    requires Mirrors(s, p, saw, calls) && Proper(a) && !Advance(p, a).Disordered? && a.ToolArgs?
    ensures Mirrors(Step(s, a), Advance(p, a), saw || a.Reasoning?, CallsStep(calls, a))
  {
    hide AbsorbAll, Held;
    StepAppends(s, a);
    AbsorbUpTo3(s.out, StepEvents(s, a));
    HeldLastCall(saw, s.traceThinking, s.traceText, calls[0], a.json);
    assert CallsStep(calls, a) == [calls[0].(args := calls[0].args + a.json)] && calls == [calls[0]];
  }

  lemma MirrorStep(s: State, p: Phase, saw: bool, calls: seq<ToolCall>, a: Atom)
    requires Mirrors(s, p, saw, calls) && Proper(a) && !Advance(p, a).Disordered?
    ensures Mirrors(Step(s, a), Advance(p, a), saw || a.Reasoning?, CallsStep(calls, a))
  {
    hide AbsorbAll, Held, StepEvents;
    match a {
      case Reasoning(_) => MirrorReasoning(s, p, saw, calls, a);
      case Content(_) => MirrorContent(s, p, saw, calls, a);
      case ToolStart(_, _, _) => MirrorToolStart(s, p, saw, calls, a);
      case ToolArgs(_, _) => MirrorToolArgs(s, p, saw, calls, a);
      case Finish(_) =>
    }
  }

  lemma MirrorStart()
    ensures Mirrors(INITIAL, Thinking, false, [])
  {
    AbsorbEmit([], MessageStart);
    assert [] + [MessageStart] == [MessageStart];
    assert AbsorbAll([]) == Assembly([], None);
  }

  lemma {:induction false} MirrorAll(atoms: seq<Atom>)
    requires PhaseOrdered(atoms) && forall a :: a in atoms ==> Proper(a)
    ensures Mirrors(Steps(INITIAL, atoms), PhaseOf(atoms), HasReasoning(atoms), CallsOf(atoms))
  {
    hide Step, Advance, AbsorbAll, Mirrors;
    if atoms == [] {
      MirrorStart();
    } else {
      var init, a := atoms[..|atoms| - 1], atoms[|atoms| - 1];
      assert !PhaseOf(init).Disordered? by {
        if PhaseOf(init).Disordered? { DisorderStays(PhaseOf(init), a); }
      }
      MirrorAll(init);
      MirrorStep(Steps(INITIAL, init), PhaseOf(init), HasReasoning(init), CallsOf(init), a);
      assert a in atoms;
    }
  }

  /** What the assembler makes of an ordered stream, in terms of the whole response. */
  function Streamed<J>(resp: Response, saw: bool, parse: string -> Option<J>): Message<J> {
    Message(Contents(Held(saw, resp.reasoning, resp.content, resp.toolCalls), parse), Some(StopReasonOf(resp.finish)))
  }

  lemma AbsorbClose(s: State)
    requires !s.failed && s.stopReason != ""
    ensures AbsorbAll(Close(s).out) == AbsorbAll(s.out).(stopReason := Some(s.stopReason))
  {
    hide AbsorbAll;
    CloseAppends(s);
    AbsorbUpTo3(s.out, CloseEvents(s));
  }

  lemma AssemblyOfOrdered<J>(atoms: seq<Atom>, reasoningContent: string, parse: string -> Option<J>)
    requires PhaseOrdered(atoms) && forall a :: a in atoms ==> Proper(a)
    ensures Assembled(Output(atoms), parse) == Streamed(Whole(atoms, reasoningContent), HasReasoning(atoms), parse)
  {
    hide AbsorbAll, Steps, Contents, Held, PhaseOf, Close;
    var s := Steps(INITIAL, atoms);
    MirrorAll(atoms);
    AccumulatorsAreConcatenations(atoms);
    AbsorbClose(s);
  }

  lemma ContentsOne<J>(a: seq<Option<Block<string>>>, parse: string -> Option<J>)
    requires |a| <= 1 && None !in a
    ensures Contents(a, parse) == if a == [] then [] else [ParseInput(a[0].value, parse)]
  {
    if a != [] {
      assert a[..0] == [];
    }
  }

  lemma ContentsOfHeld<J>(saw: bool, thinking: string, text: string, calls: seq<ToolCall>, parse: string -> Option<J>)
    requires |calls| <= 1
    ensures Contents(Held(saw, thinking, text, calls), parse) ==
      (if saw then [ThinkingBlock<Input<J>>(thinking)] else []) +
      (if text != "" then [TextBlock<Input<J>>(text)] else []) +
      (if calls == [] then [] else [ParseInput(ToolUseBlock(calls[0].id, calls[0].name, calls[0].args), parse)])
  {
    var a: seq<Option<Block<string>>> := if saw then [Some(ThinkingBlock(thinking))] else [];
    var b: seq<Option<Block<string>>> := if text != "" then [Some(TextBlock(text))] else [];
    var c: seq<Option<Block<string>>> :=
      if calls == [] then [] else [Some(ToolUseBlock(calls[0].id, calls[0].name, calls[0].args))];
    assert Held(saw, thinking, text, calls) == a + b + c;
    ContentsConcat(a + b, c, parse);
    ContentsConcat(a, b, parse);
    ContentsOne(a, parse);
    ContentsOne(b, parse);
    ContentsOne(c, parse);
  }

  lemma TranslatedShort<J>(resp: Response, parse: string -> Option<J>, fallbackId: string)
    requires |resp.toolCalls| <= 1
    requires forall c :: c in resp.toolCalls ==> c.id != "" && parse(OrEmptyObject(c.args)) != None
    ensures Translated(resp, parse, fallbackId) == Some(Message(
      (if resp.reasoningContent != "" then [ThinkingBlock<Input<J>>(resp.reasoningContent)] else []) +
      (if resp.content != "" then [TextBlock<Input<J>>(resp.content)]
       else if resp.toolCalls == [] then [TextBlock<Input<J>>("(no response)")] else []) +
      (if resp.toolCalls == [] then [] else
       var c := resp.toolCalls[0]; [ParseInput(ToolUseBlock(c.id, c.name, c.args), parse)]),
      Some(if resp.toolCalls != [] then "tool_use" else if resp.finish == "length" then "max_tokens" else "end_turn")))
  {
    if resp.toolCalls != [] {
      var c := resp.toolCalls[0];
      assert c in resp.toolCalls;
      var none: seq<ToolCall> := [];
      assert resp.toolCalls[..|resp.toolCalls| - 1] == none;
      assert CallBlocks(none, parse, fallbackId) == Some([]);
      var b := CallBlock(c, parse, fallbackId).value;
      assert [] + [b] == [b];
      assert CallBlocks(resp.toolCalls, parse, fallbackId) == Some([b]);
      assert b == ParseInput(ToolUseBlock(c.id, c.name, c.args), parse);
    } else {
      var said := Translated(resp, parse, fallbackId).value.content;
      assert said + [] == said;
    }
  }

  lemma ParsedKind<J>(cs: seq<ToolCall>, parse: string -> Option<J>)
    ensures cs != [] ==> ParseInput(ToolUseBlock(cs[0].id, cs[0].name, cs[0].args), parse).kind == KToolUse
  {
  }

  lemma CompareContents<I>(saw: bool, reasoning: string, given: string, content: string, calls: seq<Block<I>>)
    requires (reasoning != "" ==> saw) && |calls| <= 1
    requires forall c :: c in calls ==> c.kind == KToolUse
    ensures
      (if saw then [ThinkingBlock<I>(reasoning)] else []) +
      (if content != "" then [TextBlock<I>(content)] else []) + calls
      == (if given != "" then [ThinkingBlock<I>(given)] else []) +
         (if content != "" then [TextBlock<I>(content)]
          else if calls == [] then [TextBlock<I>("(no response)")] else []) + calls
      <==> (content != "" || calls != []) && (saw ==> reasoning != "") && given == reasoning
  {
    var x := (if saw then [ThinkingBlock<I>(reasoning)] else []) +
      (if content != "" then [TextBlock<I>(content)] else []) + calls;
    var y := (if given != "" then [ThinkingBlock<I>(given)] else []) +
      (if content != "" then [TextBlock<I>(content)] else if calls == [] then [TextBlock<I>("(no response)")] else []) +
      calls;
    assert saw ==> x[0] == ThinkingBlock<I>(reasoning);
    assert given != "" ==> y[0] == ThinkingBlock<I>(given);
    assert !saw && x != [] ==> x[0].kind != KThinking;
    assert given == "" && y != [] ==> y[0].kind != KThinking;
    assert saw && given == reasoning && content == "" && calls == [] ==>
      |x| == 1 && |y| == if given != "" then 2 else 1;
  }

  lemma {:induction false} ReasoningIsSeen(atoms: seq<Atom>)
    ensures ReasoningOf(atoms) != "" ==> HasReasoning(atoms)
  {
    if atoms != [] {
      ReasoningIsSeen(atoms[..|atoms| - 1]);
    }
  }

  lemma {:induction false} CallsAreNamed(atoms: seq<Atom>)
    requires forall a :: a in atoms ==> Proper(a)
    ensures forall c :: c in CallsOf(atoms) ==> c.id != ""
  {
    if atoms != [] {
      CallsAreNamed(atoms[..|atoms| - 1]);
      assert Proper(atoms[|atoms| - 1]);
      var cs, cs' := CallsOf(atoms[..|atoms| - 1]), CallsOf(atoms);
      forall n | 0 <= n < |cs'| ensures cs'[n].id != "" {
        assert n < |cs| ==> cs[n] in cs;
      }
    }
  }

  lemma ParsedStreaming<J>(atoms: seq<Atom>, resp: Response, parse: string -> Option<J>, fallbackId: string)
    requires PhaseOrdered(atoms) && (forall a :: a in atoms ==> Proper(a))
    requires resp == Whole(atoms, resp.reasoningContent)
    requires forall c :: c in resp.toolCalls ==> parse(OrEmptyObject(c.args)) != None
    ensures
      var streamed, buffered := Assembled(Output(atoms), parse), Translated(resp, parse, fallbackId);
      && buffered != None
      && (streamed.content == buffered.value.content <==>
           && (resp.content != "" || resp.toolCalls != [])
           && (HasReasoning(atoms) ==> resp.reasoning != "")
           && resp.reasoningContent == resp.reasoning)
      && (streamed.stopReason == buffered.value.stopReason <==>
           (resp.toolCalls != [] <==> resp.finish == "tool_calls"))
  {
    hide Steps, PhaseOf, Contents, Held, AbsorbAll, CallsOf, ReasoningOf, ContentOf, FinishOf, CallBlocks, HasReasoning;
    hide Translated, Output, Assembled, ParseInput;
    var saw := HasReasoning(atoms);
    AssemblyOfOrdered(atoms, resp.reasoningContent, parse);
    MirrorAll(atoms);
    ContentsOfHeld(saw, resp.reasoning, resp.content, resp.toolCalls, parse);
    ReasoningIsSeen(atoms);
    CallsAreNamed(atoms);
    TranslatedShort(resp, parse, fallbackId);
    var calls := if resp.toolCalls == [] then [] else
      [ParseInput(ToolUseBlock(resp.toolCalls[0].id, resp.toolCalls[0].name, resp.toolCalls[0].args), parse)];
    assert calls != [] ==> calls[0].kind == KToolUse by { ParsedKind(resp.toolCalls, parse); }
    CompareContents(saw, resp.reasoning, resp.reasoningContent, resp.content, calls);
  }

  lemma TranslatedThrows<J>(resp: Response, parse: string -> Option<J>, fallbackId: string)
    ensures Translated(resp, parse, fallbackId) == None <==> CallBlocks(resp.toolCalls, parse, fallbackId) == None
  {
    hide CallBlock;
  }

  /** The whole response that the chunks spell out. */
  function ResponseIn(cs: seq<Chunk>, reasoningContent: string): Response {
    Response(ReasoningIn(cs), reasoningContent, ContentIn(cs), CallsFrom(EntriesIn(cs)), FinishIn(cs))
  }

  lemma WholeIn(cs: seq<Chunk>, given: string)
    ensures ResponseIn(cs, given) == Whole(ChunksAtoms(cs), given)
    ensures AnnouncesReasoning(cs) <==> HasReasoning(ChunksAtoms(cs))
  {
    hide ReasoningIn, ContentIn, FinishIn, CallsFrom, EntriesIn, AnnouncesReasoning, ArgsOf, ArgsFrom;
    hide ReasoningOf, ContentOf, FinishOf, CallsOf, HasReasoning, ChunksAtoms;
    ChunksSay(cs);
  }

  /** Streaming refines buffering.  Cut one response into any phase-ordered chunks.  The buffered
      translation throws exactly if a call's arguments do not parse.  Otherwise assembling the emitted
      events gives its content exactly when there is something to say (content or a call), reasoning,
      if announced, is not empty, and the response carries the same reasoning under the name that the
      buffered translator reads; and its stop reason exactly when the finish reason says tool_calls just
      for tool calls. */
  lemma StreamingRefinesBuffering<J>(
      chunks: seq<Chunk>, reasoningContent: string, parse: string -> Option<J>, fallbackId: string)
    requires PhaseOrdered(ChunksAtoms(chunks))
    ensures
      var resp := ResponseIn(chunks, reasoningContent);
      var streamed := Assembled(Output(ChunksAtoms(chunks)), parse);
      var buffered := Translated(resp, parse, fallbackId);
      && (buffered == None <==> exists c :: c in resp.toolCalls && parse(OrEmptyObject(c.args)) == None)
      && (buffered != None ==>
           && (streamed.content == buffered.value.content <==>
                && (resp.content != "" || resp.toolCalls != [])
                && (AnnouncesReasoning(chunks) ==> resp.reasoning != "")
                && resp.reasoningContent == resp.reasoning)
           && (streamed.stopReason == buffered.value.stopReason <==>
                (resp.toolCalls != [] <==> resp.finish == "tool_calls")))
  {
    hide PhaseOf, Translated, Output, Assembled, HasReasoning, CallBlocks, CallsOf, ReasoningOf, ContentOf, FinishOf;
    hide ResponseIn, AnnouncesReasoning;
    WholeIn(chunks, reasoningContent);
    var atoms := ChunksAtoms(chunks);
    var resp := Whole(atoms, reasoningContent);
    CallBlocksThrow(resp.toolCalls, parse, fallbackId);
    TranslatedThrows(resp, parse, fallbackId);
    if Translated(resp, parse, fallbackId) != None {
      ChunkAtomsAreProper(chunks);
      ParsedStreaming(atoms, resp, parse, fallbackId);
    }
  }

  /** A response with at most one call, sent as a single chunk. */
  function AsChunk(resp: Response, index: int): Chunk {
    Chunk(Some(Delta(
      if resp.reasoning == "" then None else Some(resp.reasoning),
      resp.content,
      if resp.toolCalls == [] then [] else
      [ToolDelta(index, resp.toolCalls[0].id, resp.toolCalls[0].name, resp.toolCalls[0].args)])), resp.finish)
  }

  lemma WholeSnoc(atoms: seq<Atom>, a: Atom, given: string)
    ensures Whole(atoms + [a], given) == Response(
      ReasoningOf(atoms) + if a.Reasoning? then a.text else "",
      given,
      ContentOf(atoms) + if a.Content? then a.text else "",
      CallsStep(CallsOf(atoms), a),
      if a.Finish? then a.reason else FinishOf(atoms))
    ensures PhaseOf(atoms + [a]) == Advance(PhaseOf(atoms), a)
  {
    hide Advance;
    assert (atoms + [a])[..|atoms + [a]| - 1] == atoms;
  }

  function Said(resp: Response): seq<Atom> {
    (if resp.reasoning == "" then [] else [Reasoning(resp.reasoning)]) +
    (if resp.content == "" then [] else [Content(resp.content)])
  }

  function Called(resp: Response, index: int): seq<Atom> {
    if resp.toolCalls == [] then Said(resp) else
    var tc := resp.toolCalls[0];
    var start := Said(resp) + [ToolStart(index, tc.id, tc.name)];
    if tc.args == "" then start else start + [ToolArgs(index, tc.args)]
  }

  lemma WholeParts(atoms: seq<Atom>, given: string)
    ensures Whole(atoms, given) ==
      Response(ReasoningOf(atoms), given, ContentOf(atoms), CallsOf(atoms), FinishOf(atoms))
  {
  }

  lemma WholeOfNothing(given: string)
    ensures Whole([], given) == Response("", given, "", [], "") && PhaseOf([]) == Thinking
  {
  }

  lemma WholeOfSaid(resp: Response)
    ensures Whole(Said(resp), resp.reasoningContent) ==
      Response(resp.reasoning, resp.reasoningContent, resp.content, [], "")
    ensures PhaseOf(Said(resp)).Thinking? || PhaseOf(Said(resp)).Talking?
  {
    hide Whole, PhaseOf;
    var none: seq<Atom> := [];
    var a := if resp.reasoning == "" then none else [Reasoning(resp.reasoning)];
    WholeOfNothing(resp.reasoningContent);
    WholeSnoc(none, Reasoning(resp.reasoning), resp.reasoningContent);
    assert none + [Reasoning(resp.reasoning)] == [Reasoning(resp.reasoning)];
    WholeSnoc(a, Content(resp.content), resp.reasoningContent);
    assert Said(resp) == if resp.content == "" then a else a + [Content(resp.content)];
    WholeParts(none, resp.reasoningContent);
    WholeParts(a, resp.reasoningContent);
  }

  lemma WholeOfCalled(resp: Response, index: int)
    requires |resp.toolCalls| <= 1
    ensures Whole(Called(resp, index), resp.reasoningContent) == resp.(finish := "")
    ensures !PhaseOf(Called(resp, index)).Disordered?
  {
    hide Said, Whole, PhaseOf, CallsOf;
    WholeOfSaid(resp);
    WholeParts(Said(resp), resp.reasoningContent);
    if resp.toolCalls != [] {
      var tc := resp.toolCalls[0];
      var start := Said(resp) + [ToolStart(index, tc.id, tc.name)];
      WholeSnoc(Said(resp), ToolStart(index, tc.id, tc.name), resp.reasoningContent);
      WholeParts(start, resp.reasoningContent);
      WholeSnoc(start, ToolArgs(index, tc.args), resp.reasoningContent);
      assert resp.reasoning + "" == resp.reasoning && resp.content + "" == resp.content;
      assert "" + tc.args == tc.args && Whole(start, resp.reasoningContent).toolCalls == [ToolCall(tc.id, tc.name, "")];
      assert resp.toolCalls == [ToolCall(tc.id, tc.name, tc.args)];
    }
  }

  lemma OneChunk(resp: Response, index: int)
    requires |resp.toolCalls| <= 1 && forall c :: c in resp.toolCalls ==> c.id != ""
    ensures ChunksAtoms([AsChunk(resp, index)]) ==
      Called(resp, index) + if resp.finish == "" then [] else [Finish(resp.finish)]
  {
    var c := AsChunk(resp, index);
    assert ChunksAtoms([c][..0]) == [];
    var ts := c.delta.value.toolCalls;
    if ts != [] {
      assert resp.toolCalls[0] in resp.toolCalls;
      assert ToolsAtoms(ts[..0]) == [];
      assert ToolsAtoms(ts) == ToolAtoms(ts[0]);
    }
    assert Said(resp) + ToolsAtoms(ts) == Called(resp, index);
  }

  /** Every response with at most one call is what some ordered stream spells out, so the theorem above
      speaks about each of them. */
  lemma EveryResponseStreams(resp: Response, index: int)
    requires |resp.toolCalls| <= 1 && forall c :: c in resp.toolCalls ==> c.id != ""
    ensures PhaseOrdered(ChunksAtoms([AsChunk(resp, index)]))
    ensures ResponseIn([AsChunk(resp, index)], resp.reasoningContent) == resp
  {
    hide Said, Called, CallsOf, Whole, PhaseOf;
    hide ResponseIn, ChunksAtoms, ReasoningOf, ContentOf, FinishOf;
    WholeIn([AsChunk(resp, index)], resp.reasoningContent);
    OneChunk(resp, index);
    WholeOfSaid(resp);
    WholeOfCalled(resp, index);
    var atoms := Called(resp, index);
    WholeParts(atoms, resp.reasoningContent);
    WholeSnoc(atoms, Finish(resp.finish), resp.reasoningContent);
    assert atoms + [] == atoms;
    assert resp.reasoning + "" == resp.reasoning && resp.content + "" == resp.content;
  }

  // --------------------------------------------------------------- the trace

  /** The tool_use blocks of the trace; keys is the order in which Object.values lists them. */
  function TraceCalls<J>(tools: map<int, ToolAccum>, keys: seq<int>, parse: string -> Option<J>): seq<Block<Input<J>>>
    requires forall k :: k in keys ==> k in tools
  {
    if keys == [] then [] else
    var last := keys[|keys| - 1];
    assert last in keys;
    var c := tools[last];
    TraceCalls(tools, keys[..|keys| - 1], parse) + [ParseInput(ToolUseBlock(c.id, c.name, c.args), parse)]
  }

  /** The content that the handler logs from its accumulators, without reading its own events. */
  function TraceContent<J>(s: State, keys: seq<int>, parse: string -> Option<J>): seq<Block<Input<J>>>
    requires forall k :: k in keys ==> k in s.tools
  {
    (if s.traceThinking != "" then [ThinkingBlock<Input<J>>(s.traceThinking)] else []) +
    (if s.traceText != "" then [TextBlock<Input<J>>(s.traceText)] else []) +
    TraceCalls(s.tools, keys, parse)
  }

  /** One block per accumulator, in order, its input parsed or kept as it is. */
  lemma {:induction false} TraceCallsAre<J>(tools: map<int, ToolAccum>, keys: seq<int>, parse: string -> Option<J>)
    requires forall k :: k in keys ==> k in tools
    ensures |TraceCalls(tools, keys, parse)| == |keys|
    ensures forall i :: 0 <= i < |keys| ==>
      keys[i] in tools &&
      var c := tools[keys[i]];
      var parsed := parse(if c.args == "" then "{}" else c.args);
      TraceCalls(tools, keys, parse)[i] == Block(
        KToolUse, None, None, c.id, c.name, Some(if parsed == None then Raw(c.args) else Parsed(parsed.value)))
  {
    if keys != [] {
      TraceCallsAre(tools, keys[..|keys| - 1], parse);
      assert keys[|keys| - 1] in keys;
    }
  }

  method BuildTraceContent<J(==)>(h: StreamHandler, keys: seq<int>, parse: string -> Option<J>)
    returns (traceContent: seq<Block<Input<J>>>)
    requires forall k :: k in keys ==> k in h.toolCallAccum
    ensures traceContent == TraceContent(h.Now(), keys, parse)
  {
    var tools := h.toolCallAccum;
    traceContent := [];
    if h.traceThinking != "" {
      traceContent := traceContent + [ThinkingBlock(h.traceThinking)];
    }
    if h.traceText != "" {
      traceContent := traceContent + [TextBlock(h.traceText)];
    }
    ghost var before := traceContent;
    for n := 0 to |keys|
      invariant traceContent == before + TraceCalls(tools, keys[..n], parse)
    {
      assert keys[..n + 1][..n] == keys[..n];
      var key := keys[n];
      assert key in keys;
      var tc := tools[key];
      traceContent := traceContent + [ParseInput(ToolUseBlock(tc.id, tc.name, tc.args), parse)];
    }
    assert keys[..|keys|] == keys;
  }

  ghost predicate Lists(keys: seq<int>, tools: map<int, ToolAccum>) {
    && (forall k :: k in keys <==> k in tools)
    && |keys| == |tools|
  }

  lemma TraceOfOneCall<J>(
      tools: map<int, ToolAccum>, keys: seq<int>, p: Phase, calls: seq<ToolCall>, parse: string -> Option<J>)
    requires Lists(keys, tools) && |calls| == (if p.Calling? then 1 else 0)
    requires tools == if p.Calling? then map[p.index := AccumOf(calls[0])] else map[]
    ensures TraceCalls(tools, keys, parse) ==
      if calls == [] then [] else [ParseInput(ToolUseBlock(calls[0].id, calls[0].name, calls[0].args), parse)]
  {
    hide ParseInput;
    if p.Calling? {
      assert |tools| == 1 && keys[0] in tools;
      assert keys == [p.index];
      assert TraceCalls(tools, keys[..0], parse) == [];
    }
  }

  lemma CompareThinking<I>(saw: bool, reasoning: string, content: string, calls: seq<Block<I>>)
    requires reasoning != "" ==> saw
    ensures
      (if reasoning != "" then [ThinkingBlock<I>(reasoning)] else []) +
      (if content != "" then [TextBlock<I>(content)] else []) + calls
      == (if saw then [ThinkingBlock<I>(reasoning)] else []) +
         (if content != "" then [TextBlock<I>(content)] else []) + calls
      <==> (saw ==> reasoning != "")
  {
    var x := (if reasoning != "" then [ThinkingBlock<I>(reasoning)] else []) +
      (if content != "" then [TextBlock<I>(content)] else []) + calls;
    var y := (if saw then [ThinkingBlock<I>(reasoning)] else []) +
      (if content != "" then [TextBlock<I>(content)] else []) + calls;
    assert saw && reasoning == "" ==> |x| != |y|;
  }

  /** For an ordered stream the trace shows what a client assembles from the events, exactly when
      reasoning, if announced, is not empty. */
  lemma TraceIsWhatClientsSee<J>(atoms: seq<Atom>, keys: seq<int>, parse: string -> Option<J>)
    requires PhaseOrdered(atoms) && forall a :: a in atoms ==> Proper(a)
    requires Lists(keys, Steps(INITIAL, atoms).tools)
    ensures TraceContent(Steps(INITIAL, atoms), keys, parse) == Assembled(Output(atoms), parse).content <==>
      (HasReasoning(atoms) ==> ReasoningOf(atoms) != "")
  {
    hide Steps, PhaseOf, Contents, Held, AbsorbAll, CallsOf, ReasoningOf, ContentOf, FinishOf, HasReasoning;
    hide Output, Assembled, ParseInput, Lists;
    var s, saw, calls := Steps(INITIAL, atoms), HasReasoning(atoms), CallsOf(atoms);
    MirrorAll(atoms);
    AccumulatorsAreConcatenations(atoms);
    AssemblyOfOrdered(atoms, "", parse);
    ContentsOfHeld(saw, s.traceThinking, s.traceText, calls, parse);
    ReasoningIsSeen(atoms);
    var told: seq<Block<Input<J>>> :=
      if calls == [] then [] else [ParseInput(ToolUseBlock(calls[0].id, calls[0].name, calls[0].args), parse)];
    TraceOfOneCall(s.tools, keys, PhaseOf(atoms), calls, parse);
    CompareThinking(saw, s.traceThinking, s.traceText, told);
  }
}

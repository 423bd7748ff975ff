/** Whole messages in the inference proxy (tools/anthropic-shim.ts): the assembler that folds an
    event stream back into one message, and the buffered translator.

    JSON stays a parameter: J is the type of parsed values and parse the parser. */
module AnthropicMessage {
  import opened Wrappers
  import opened AnthropicStream

  /** A tool's input: parsed, or the string that did not parse. */
  datatype Input<+J> = Raw(json: string) | Parsed(value: J)

  datatype Block<+I> = Block(
    kind: Kind,
    thinking: Option<string>,
    text: Option<string>,
    id: string,
    name: string,
    input: Option<I>)

  function ThinkingBlock<I>(t: string): Block<I> {
    Block(KThinking, Some(t), None, "", "", None)
  }

  function TextBlock<I>(t: string): Block<I> {
    Block(KText, None, Some(t), "", "", None)
  }

  function ToolUseBlock<I>(id: string, name: string, input: I): Block<I> {
    Block(KToolUse, None, None, id, name, Some(input))
  }

  function OrEmptyObject(json: string): string {
    if json == "" then "{}" else json
  }

  // -------------------------------------------------------------- assembling

  /** The assembler's sparse array and its last stop reason. */
  datatype Assembly = Assembly(blocks: seq<Option<Block<string>>>, stopReason: Option<string>)

  /** Store at an index, growing the array with holes. */
  function Put<T>(a: seq<Option<T>>, i: nat, x: T): seq<Option<T>> {
    if i < |a| then a[i := Some(x)] else a + seq(i - |a|, _ => None) + [Some(x)]
  }

  function Started(k: Kind, id: string, name: string): Block<string> {
    match k
    case KThinking => ThinkingBlock("")
    case KText => TextBlock("")
    case KToolUse => ToolUseBlock(id, name, "")
  }

  function Or(o: Option<string>): string {
    if o == None then "" else o.value
  }

  function Extended(b: Block<string>, piece: Kind, t: string): Block<string> {
    match piece
    case KThinking => b.(thinking := Some(Or(b.thinking) + t))
    case KText => b.(text := Some(Or(b.text) + t))
    case KToolUse => b.(input := Some(Or(b.input) + t))
  }

  function Absorb(m: Assembly, e: Event): Assembly {
    match e
    case BlockStart(i, k, id, name) => m.(blocks := Put(m.blocks, i, Started(k, id, name)))
    case BlockDelta(i, piece, t) =>
      if i < |m.blocks| && m.blocks[i] != None
      then m.(blocks := m.blocks[i := Some(Extended(m.blocks[i].value, piece, t))]) else m
    case MessageDelta(r) => if r != "" then m.(stopReason := Some(r)) else m
    case _ => m
  }

  function AbsorbAll(events: seq<Event>): Assembly {
    if events == [] then Assembly([], None) else Absorb(AbsorbAll(events[..|events| - 1]), events[|events| - 1])
  }

  function ParseInput<J>(b: Block<string>, parse: string -> Option<J>): Block<Input<J>> {
    var input :=
      match b.input
      case None => None
      case Some(json) =>
        if b.kind == KToolUse && parse(OrEmptyObject(json)) != None
        then Some(Parsed(parse(OrEmptyObject(json)).value)) else Some(Raw(json));
    Block(b.kind, b.thinking, b.text, b.id, b.name, input)
  }

  /** Inputs parsed, holes dropped. */
  function Contents<J>(blocks: seq<Option<Block<string>>>, parse: string -> Option<J>): seq<Block<Input<J>>> {
    if blocks == [] then [] else
    Contents(blocks[..|blocks| - 1], parse) +
    match blocks[|blocks| - 1] { case None => [] case Some(b) => [ParseInput(b, parse)] }
  }

  datatype Message<+J> = Message(content: seq<Block<Input<J>>>, stopReason: Option<string>)

  function Assembled<J>(events: seq<Event>, parse: string -> Option<J>): Message<J> {
    var m := AbsorbAll(events);
    Message(Contents(m.blocks, parse), m.stopReason)
  }

  method AssembleAnthropicSse<J(==)>(events: seq<Event>, parse: string -> Option<J>) returns (r: Message<J>)
    ensures r == Assembled(events, parse)
  {
    hide Put, Extended, Started;
    var blocks: seq<Option<Block<string>>> := [];
    var stopReason: Option<string> := None;
    for n := 0 to |events|
      invariant Assembly(blocks, stopReason) == AbsorbAll(events[..n])
    {
      assert events[..n + 1][..n] == events[..n];
      match events[n] {
        case BlockStart(i, k, id, name) =>
          blocks := Put(blocks, i, Started(k, id, name));
        case BlockDelta(i, piece, t) =>
          if i < |blocks| && blocks[i] != None {
            blocks := blocks[i := Some(Extended(blocks[i].value, piece, t))];
          }
        case MessageDelta(reason) =>
          if reason != "" {
            stopReason := Some(reason);
          }
        case _ =>
      }
    }
    assert events[..|events|] == events;
    var content: seq<Block<Input<J>>> := [];
    for n := 0 to |blocks|
      invariant content == Contents(blocks[..n], parse)
    {
      assert blocks[..n + 1][..n] == blocks[..n];
      if blocks[n] != None {
        content := content + [ParseInput(blocks[n].value, parse)];
      }
    }
    assert blocks[..|blocks|] == blocks;
    r := Message(content, stopReason);
  }

  /** One block of a message, from the events with its index alone. */
  function BlockAt(events: seq<Event>, i: nat): Option<Block<string>> {
    if events == [] then None else
    var b := BlockAt(events[..|events| - 1], i);
    match events[|events| - 1]
    case BlockStart(k, kind, id, name) =>
      if k != i then b
      else if kind == KThinking then Some(Block(kind, Some(""), None, "", "", None))
      else if kind == KText then Some(Block(kind, None, Some(""), "", "", None))
      else Some(Block(kind, None, None, id, name, Some("")))
    case BlockDelta(k, piece, t) =>
      if k != i || b == None then b
      else if piece == KThinking then
        Some(b.value.(thinking := Some((if b.value.thinking == None then "" else b.value.thinking.value) + t)))
      else if piece == KText then
        Some(b.value.(text := Some((if b.value.text == None then "" else b.value.text.value) + t)))
      else
        Some(b.value.(input := Some((if b.value.input == None then "" else b.value.input.value) + t)))
    case _ => b
  }

  function At<T>(a: seq<Option<T>>, i: nat): Option<T> {
    if i < |a| then a[i] else None
  }

  lemma PutAt<T>(a: seq<Option<T>>, k: nat, x: T, i: nat)
    ensures At(Put(a, k, x), i) == if i == k then Some(x) else At(a, i)
  {
  }

  /** However the events of different blocks interleave, with holes and repeated starts. */
  lemma {:induction false} BlocksAreApart(events: seq<Event>, i: nat)
    ensures At(AbsorbAll(events).blocks, i) == BlockAt(events, i)
  {
    if events != [] {
      var init, e := events[..|events| - 1], events[|events| - 1];
      BlocksAreApart(init, i);
      var m := AbsorbAll(init);
      if e.BlockStart? {
        PutAt(m.blocks, e.index, Started(e.kind, e.id, e.name), i);
      }
    }
  }

  /** How many blocks come before index i. */
  function CountBefore(events: seq<Event>, i: nat): nat {
    if i == 0 then 0 else CountBefore(events, i - 1) + if BlockAt(events, i - 1) != None then 1 else 0
  }

  lemma {:induction false} ContentsCount<J>(
      blocks: seq<Option<Block<string>>>, events: seq<Event>, parse: string -> Option<J>)
    requires forall j :: 0 <= j < |blocks| ==> blocks[j] == BlockAt(events, j)
    ensures |Contents(blocks, parse)| == CountBefore(events, |blocks|)
  {
    hide BlockAt;
    if blocks != [] {
      ContentsCount(blocks[..|blocks| - 1], events, parse);
    }
  }

  lemma ContentsSnoc<J>(blocks: seq<Option<Block<string>>>, b: Block<string>, parse: string -> Option<J>)
    ensures Contents(blocks + [Some(b)], parse) == Contents(blocks, parse) + [ParseInput(b, parse)]
  {
    hide ParseInput;
    assert (blocks + [Some(b)])[..|blocks + [Some(b)]| - 1] == blocks;
  }

  lemma {:induction false} ContentsConcat<J>(
      a: seq<Option<Block<string>>>, b: seq<Option<Block<string>>>, parse: string -> Option<J>)
    ensures Contents(a + b, parse) == Contents(a, parse) + Contents(b, parse)
    decreases |b|
  {
    if b == [] {
      assert a + b == a;
    } else {
      assert (a + b)[..|a + b| - 1] == a + b[..|b| - 1];
      ContentsConcat(a, b[..|b| - 1], parse);
    }
  }

  lemma ContentsAt<J>(
      blocks: seq<Option<Block<string>>>, events: seq<Event>, parse: string -> Option<J>, i: nat)
    requires forall j :: 0 <= j < |blocks| ==> blocks[j] == BlockAt(events, j)
    requires i < |blocks| && blocks[i] != None
    ensures CountBefore(events, i) < |Contents(blocks, parse)|
    ensures Contents(blocks, parse)[CountBefore(events, i)] == ParseInput(blocks[i].value, parse)
  {
    hide BlockAt, Contents, ParseInput, CountBefore;
    var before, after := blocks[..i], blocks[i + 1..];
    ContentsCount(before, events, parse);
    ContentsSnoc(before, blocks[i].value, parse);
    ContentsConcat(before + [blocks[i]], after, parse);
    assert blocks == before + [blocks[i]] + after;
  }

  lemma {:induction false} CountStops(events: seq<Event>, n: nat, i: nat)
    requires n <= i && forall j :: n <= j < i ==> BlockAt(events, j) == None
    ensures CountBefore(events, i) == CountBefore(events, n)
    decreases i
  {
    if n < i {
      CountStops(events, n, i - 1);
    }
  }

  lemma {:induction false} BlocksWithin(events: seq<Event>, n: nat)
    requires forall e :: e in events && e.BlockStart? ==> e.index < n
    ensures |AbsorbAll(events).blocks| <= n
  {
    if events != [] {
      BlocksWithin(events[..|events| - 1], n);
      assert events[|events| - 1] in events;
    }
  }

  /** The message assembled holds the blocks that were started, in the order of their indices, each made of
      the events with its index; tool input is parsed, or kept as the string it is where it does not parse. */
  lemma AssembledBlocks<J>(events: seq<Event>, parse: string -> Option<J>, i: nat)
    ensures
      var content := Assembled(events, parse).content;
      var before := CountBefore(events, i);
      && ((forall e :: e in events && e.BlockStart? ==> e.index < i) ==> |content| == before)
      && (BlockAt(events, i) != None ==>
           var b := BlockAt(events, i).value;
           && before < |content|
           && content[before] == Block(
                b.kind, b.thinking, b.text, b.id, b.name,
                if b.input == None then None
                else if b.kind != KToolUse then Some(Raw(b.input.value))
                else var parsed := parse(if b.input.value == "" then "{}" else b.input.value);
                     Some(if parsed == None then Raw(b.input.value) else Parsed(parsed.value))))
  {
    hide AbsorbAll, BlockAt, Contents, CountBefore;
    var blocks := AbsorbAll(events).blocks;
    forall j: nat ensures At(blocks, j) == BlockAt(events, j) {
      BlocksAreApart(events, j);
    }
    ContentsCount(blocks, events, parse);
    if i < |blocks| && blocks[i] != None {
      ContentsAt(blocks, events, parse, i);
    }
    if forall e :: e in events && e.BlockStart? ==> e.index < i {
      BlocksWithin(events, i);
      CountStops(events, |blocks|, i);
    }
  }

  /** The stop reason of the last event that gives one. */
  lemma {:induction false} LastStopReason(events: seq<Event>, n: nat)
    requires n < |events| && events[n].MessageDelta? && events[n].stopReason != ""
    requires forall k :: n < k < |events| ==> events[k].MessageDelta? ==> events[k].stopReason == ""
    ensures AbsorbAll(events).stopReason == Some(events[n].stopReason)
  {
    if n < |events| - 1 {
      LastStopReason(events[..|events| - 1], n);
    }
  }

  // --------------------------------------------------- the buffered translator

  datatype ToolCall = ToolCall(id: string, name: string, args: string)

  /** The backend may name its reasoning either way: the stream handler reads reasoning, the buffered
      translator reasoningContent (reasoning_content, or its copy in provider_specific_fields). */
  datatype Response = Response(
    reasoning: string,
    reasoningContent: string,
    content: string,
    toolCalls: seq<ToolCall>,
    finish: string)

  function CallBlock<J>(c: ToolCall, parse: string -> Option<J>, fallbackId: string): Option<Block<Input<J>>> {
    match parse(OrEmptyObject(c.args))
    case None => None
    case Some(j) => Some(ToolUseBlock(if c.id != "" then c.id else fallbackId, c.name, Parsed(j)))
  }

  /** None where parsing one call's arguments throws. */
  function CallBlocks<J>(cs: seq<ToolCall>, parse: string -> Option<J>, fallbackId: string)
    : Option<seq<Block<Input<J>>>>
  {
    if cs == [] then Some([]) else
    match (CallBlocks(cs[..|cs| - 1], parse, fallbackId), CallBlock(cs[|cs| - 1], parse, fallbackId))
    case (Some(bs), Some(b)) => Some(bs + [b])
    case _ => None
  }

  function Translated<J>(resp: Response, parse: string -> Option<J>, fallbackId: string): Option<Message<J>> {
    var thinking: seq<Block<Input<J>>> :=
      if resp.reasoningContent != "" then [ThinkingBlock(resp.reasoningContent)] else [];
    if resp.toolCalls == [] then
      var text := if resp.content != "" then resp.content else "(no response)";
      Some(Message(thinking + [TextBlock(text)], Some(if resp.finish == "length" then "max_tokens" else "end_turn")))
    else
      match CallBlocks(resp.toolCalls, parse, fallbackId)
      case None => None
      case Some(calls) =>
        var text: seq<Block<Input<J>>> := if resp.content != "" then [TextBlock(resp.content)] else [];
        Some(Message(thinking + text + calls, Some("tool_use")))
  }

  lemma {:induction false} NoneStays<J>(cs: seq<ToolCall>, n: nat, parse: string -> Option<J>, fallbackId: string)
    requires n <= |cs| && CallBlocks(cs[..n], parse, fallbackId) == None
    ensures CallBlocks(cs, parse, fallbackId) == None
    decreases |cs|
  {
    if n < |cs| {
      assert cs[..|cs| - 1][..n] == cs[..n];
      NoneStays(cs[..|cs| - 1], n, parse, fallbackId);
    } else {
      assert cs[..n] == cs;
    }
  }

  /** The buffered translation throws exactly if some call's arguments do not parse. */
  lemma {:induction false} CallBlocksThrow<J>(cs: seq<ToolCall>, parse: string -> Option<J>, fallbackId: string)
    ensures CallBlocks(cs, parse, fallbackId) == None <==> exists c :: c in cs && parse(OrEmptyObject(c.args)) == None
  {
    if cs != [] {
      CallBlocksThrow(cs[..|cs| - 1], parse, fallbackId);
      assert forall c :: c in cs <==> c in cs[..|cs| - 1] || c == cs[|cs| - 1];
    }
  }

  /** One block for each call, in order, with the call's own name, id and parsed input. */
  ghost predicate CallsFollow<J>(
      bs: seq<Block<Input<J>>>, cs: seq<ToolCall>, parse: string -> Option<J>, fallbackId: string)
  {
    && |bs| == |cs|
    && forall i :: 0 <= i < |cs| ==>
         var json := if cs[i].args == "" then "{}" else cs[i].args;
         && parse(json) != None
         && bs[i] == Block(
              KToolUse, None, None, if cs[i].id == "" then fallbackId else cs[i].id, cs[i].name,
              Some(Parsed(parse(json).value)))
  }

  lemma {:induction false} CallBlocksAre<J>(cs: seq<ToolCall>, parse: string -> Option<J>, fallbackId: string)
    requires CallBlocks(cs, parse, fallbackId) != None
    ensures CallsFollow(CallBlocks(cs, parse, fallbackId).value, cs, parse, fallbackId)
  {
    if cs != [] {
      CallBlocksAre(cs[..|cs| - 1], parse, fallbackId);
    }
  }

  /** The loop over the calls: None where parsing throws. */
  method PushToolUses<J(==)>(calls: seq<ToolCall>, parse: string -> Option<J>, fallbackId: string)
    returns (r: Option<seq<Block<Input<J>>>>)
    ensures r == CallBlocks(calls, parse, fallbackId)
    ensures r == None <==> exists c :: c in calls && parse(if c.args == "" then "{}" else c.args) == None
    ensures r != None ==> CallsFollow(r.value, calls, parse, fallbackId)
  {
    hide CallBlock;
    var pushed: seq<Block<Input<J>>> := [];
    for n := 0 to |calls|
      invariant CallBlocks(calls[..n], parse, fallbackId) == Some(pushed)
    {
      assert calls[..n + 1][..n] == calls[..n];
      var b := CallBlock(calls[n], parse, fallbackId);
      if b == None {
        NoneStays(calls, n + 1, parse, fallbackId);
        CallBlocksThrow(calls, parse, fallbackId);
        return None;
      }
      pushed := pushed + [b.value];
    }
    assert calls[..|calls|] == calls;
    CallBlocksThrow(calls, parse, fallbackId);
    CallBlocksAre(calls, parse, fallbackId);
    r := Some(pushed);
  }

  /** The translation block by block, for any number of calls: it throws exactly if some call's arguments do
      not parse; otherwise there are the reasoning, the content or what stands in for it, then every call in
      order, and nothing else. */
  ghost predicate FullyTranslated<J>(
      r: Option<Message<J>>, resp: Response, parse: string -> Option<J>, fallbackId: string)
  {
    if exists c :: c in resp.toolCalls && parse(if c.args == "" then "{}" else c.args) == None then r == None else
    var thinks := if resp.reasoningContent != "" then 1 else 0;
    var lead := thinks + if resp.content != "" || resp.toolCalls == [] then 1 else 0;
    && r != None && |r.value.content| == lead + |resp.toolCalls|
    && (thinks == 1 ==>
         r.value.content[0] == Block(KThinking, Some(resp.reasoningContent), None, "", "", None))
    && (lead > thinks ==>
         var text := if resp.content != "" then resp.content else "(no response)";
         r.value.content[thinks] == Block(KText, None, Some(text), "", "", None))
    && CallsFollow(r.value.content[lead..], resp.toolCalls, parse, fallbackId)
    && r.value.stopReason == Some(
         if resp.toolCalls != [] then "tool_use"
         else if resp.finish == "length" then "max_tokens"
         else "end_turn")
  }

  lemma SilentTranslation<J>(resp: Response, parse: string -> Option<J>, fallbackId: string)
    requires resp.toolCalls == []
    ensures FullyTranslated(Translated(resp, parse, fallbackId), resp, parse, fallbackId)
  {
    hide CallBlocks;
  }

  lemma CallsHaveLength<J>(
      bs: seq<Block<Input<J>>>, cs: seq<ToolCall>, parse: string -> Option<J>, fallbackId: string)
    ensures CallsFollow(bs, cs, parse, fallbackId) ==> |bs| == |cs|
  {
  }

  lemma CallingTranslation<J>(resp: Response, parse: string -> Option<J>, fallbackId: string)
    requires resp.toolCalls != []
    ensures FullyTranslated(Translated(resp, parse, fallbackId), resp, parse, fallbackId)
  {
    hide CallBlock, CallBlocks, CallsFollow;
    CallBlocksThrow(resp.toolCalls, parse, fallbackId);
    if CallBlocks(resp.toolCalls, parse, fallbackId) != None {
      CallBlocksAre(resp.toolCalls, parse, fallbackId);
      var calls := CallBlocks(resp.toolCalls, parse, fallbackId).value;
      CallsHaveLength(calls, resp.toolCalls, parse, fallbackId);
      var content := Translated(resp, parse, fallbackId).value.content;
      assert content[|content| - |calls|..] == calls;
    }
  }

  lemma TranslationIsFull<J>(resp: Response, parse: string -> Option<J>, fallbackId: string)
    ensures FullyTranslated(Translated(resp, parse, fallbackId), resp, parse, fallbackId)
  {
    hide FullyTranslated, Translated;
    if resp.toolCalls == [] {
      SilentTranslation(resp, parse, fallbackId);
    } else {
      CallingTranslation(resp, parse, fallbackId);
    }
  }

  lemma SameCallBlocks<J>(
      a: seq<Block<Input<J>>>, b: seq<Block<Input<J>>>, cs: seq<ToolCall>, parse: string -> Option<J>,
      fallbackId: string)
    requires CallsFollow(a, cs, parse, fallbackId) && CallsFollow(b, cs, parse, fallbackId)
    ensures a == b
  {
  }

  /** It says everything: no other answer meets it. */
  lemma TranslationIsUnique<J>(
      r: Option<Message<J>>, resp: Response, parse: string -> Option<J>, fallbackId: string)
    ensures FullyTranslated(r, resp, parse, fallbackId) <==> r == Translated(resp, parse, fallbackId)
  {
    hide CallsFollow, Translated;
    TranslationIsFull(resp, parse, fallbackId);
    var t := Translated(resp, parse, fallbackId);
    if FullyTranslated(r, resp, parse, fallbackId) && r != None && t != None {
      var lead := |t.value.content| - |resp.toolCalls|;
      SameCallBlocks(r.value.content[lead..], t.value.content[lead..], resp.toolCalls, parse, fallbackId);
      assert r.value.content[..lead] == t.value.content[..lead];
      assert r.value.content == r.value.content[..lead] + r.value.content[lead..];
      assert t.value.content == t.value.content[..lead] + t.value.content[lead..];
    }
  }

  method OpenAIToAnthropic<J(==)>(resp: Response, parse: string -> Option<J>, fallbackId: string)
    returns (r: Option<Message<J>>)
    ensures FullyTranslated(r, resp, parse, fallbackId)
  {
    hide CallBlock, CallBlocks, FullyTranslated;
    TranslationIsFull(resp, parse, fallbackId);
    var contentBlocks: seq<Block<Input<J>>> := [];
    if resp.reasoningContent != "" {
      contentBlocks := contentBlocks + [ThinkingBlock(resp.reasoningContent)];
    }
    ghost var thinking: seq<Block<Input<J>>> :=
      if resp.reasoningContent != "" then [ThinkingBlock(resp.reasoningContent)] else [];
    ghost var text: seq<Block<Input<J>>> := if resp.content != "" then [TextBlock(resp.content)] else [];
    assert contentBlocks == thinking;
    if |resp.toolCalls| > 0 {
      if resp.content != "" {
        contentBlocks := contentBlocks + [TextBlock(resp.content)];
      }
      assert contentBlocks == thinking + text;
      var calls := PushToolUses(resp.toolCalls, parse, fallbackId);
      if calls == None {
        return None;
      }
      contentBlocks := contentBlocks + calls.value;
    } else {
      contentBlocks := contentBlocks + [TextBlock(if resp.content != "" then resp.content else "(no response)")];
    }
    var stopReason :=
      if |resp.toolCalls| > 0 then "tool_use"
      else if resp.finish == "stop" then "end_turn"
      else if resp.finish == "length" then "max_tokens"
      else "end_turn";
    r := Some(Message(contentBlocks, Some(stopReason)));
  }
}

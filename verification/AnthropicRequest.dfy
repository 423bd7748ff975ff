/** The request direction of the inference proxy (tools/anthropic-shim.ts): Anthropic turns
    become OpenAI messages.  J is the type of tool inputs; stringify prints them. */
module AnthropicRequest {
  import opened JsText
  import opened Wrappers

  datatype ResultContent = PlainResult(text: string) | PartsResult(texts: seq<string>) | NoResult

  datatype Part<+J> =
    | Text(text: string)
    | ToolUse(id: string, name: string, input: J)
    | ToolResult(toolUseId: string, result: ResultContent)
    | OtherPart

  datatype Content<+J> = Plain(text: string) | Parts(parts: seq<Part<J>>)

  datatype Turn<+J> = Turn(role: string, content: Content<J>)

  datatype Call = Call(id: string, name: string, arguments: string)

  datatype Message = Message(role: string, content: Option<string>, toolCalls: seq<Call>, toolCallId: string)

  // ------------------------------------------------------------- one turn

  function Texts<J>(parts: seq<Part<J>>): seq<string> {
    if parts == [] then [] else
    Texts(parts[..|parts| - 1]) +
    match parts[|parts| - 1] { case Text(t) => [t] case _ => [] }
  }

  function Calls<J>(parts: seq<Part<J>>, stringify: J -> string): seq<Call> {
    if parts == [] then [] else
    Calls(parts[..|parts| - 1], stringify) +
    match parts[|parts| - 1] { case ToolUse(id, name, input) => [Call(id, name, stringify(input))] case _ => [] }
  }

  function Results<J>(parts: seq<Part<J>>): seq<Part<J>> {
    if parts == [] then [] else
    Results(parts[..|parts| - 1]) + if parts[|parts| - 1].ToolResult? then [parts[|parts| - 1]] else []
  }

  function ResultText(r: ResultContent): string {
    match r
    case PlainResult(t) => t
    case PartsResult(ts) => Join(ts, "")
    case NoResult => ""
  }

  function ToolMessage<J>(p: Part<J>): Message
    requires p.ToolResult?
  {
    Message("tool", Some(ResultText(p.result)), [], p.toolUseId)
  }

  lemma {:induction false} ResultsAreResults<J>(parts: seq<Part<J>>)
    ensures forall p :: p in Results(parts) ==> p.ToolResult?
  {
    if parts != [] {
      ResultsAreResults(parts[..|parts| - 1]);
    }
  }

  function ToolMessages<J>(parts: seq<Part<J>>): (ms: seq<Message>)
    requires forall p :: p in parts ==> p.ToolResult?
    ensures |ms| == |parts| && forall i :: 0 <= i < |ms| ==> ms[i] == ToolMessage(parts[i])
  {
    seq(|parts|, i requires 0 <= i < |parts| => ToolMessage(parts[i]))
  }

  function TurnMessages<J>(t: Turn<J>, stringify: J -> string): seq<Message> {
    match t.content
    case Plain(text) => [Message(t.role, Some(text), [], "")]
    case Parts(parts) =>
      if t.role == "assistant" then
        var text := Join(Texts(parts), "");
        [Message("assistant", if text != "" then Some(text) else None, Calls(parts, stringify), "")]
      else if t.role == "user" then
        ResultsAreResults(parts);
        var results := Results(parts);
        if results != [] then
          ToolMessages(results) +
          (if Join(Texts(parts), "") != "" then [Message("user", Some(Join(Texts(parts), "")), [], "")] else [])
        else [Message("user", Some(Join(Texts(parts), "\n")), [], "")]
      else []
  }

  function TurnsMessages<J>(ts: seq<Turn<J>>, stringify: J -> string): seq<Message> {
    if ts == [] then [] else TurnsMessages(ts[..|ts| - 1], stringify) + TurnMessages(ts[|ts| - 1], stringify)
  }

  /** The system prompt: one text, or several joined by newlines; an empty text is no prompt. */
  datatype System = NoSystem | SystemText(text: string) | SystemBlocks(texts: seq<string>)

  function SystemMessages(s: System): seq<Message> {
    match s
    case NoSystem => []
    case SystemText(t) => if t == "" then [] else [Message("system", Some(t), [], "")]
    case SystemBlocks(ts) => [Message("system", Some(Join(ts, "\n")), [], "")]
  }

  /** The body of the loop over turns. */
  method PushTurn<J>(before: seq<Message>, t: Turn<J>, stringify: J -> string) returns (messages: seq<Message>)
    ensures messages == before + TurnMessages(t, stringify)
  {
    hide Texts, Calls, Results, Join;
    messages := before;
    match t.content {
      case Plain(text) =>
        messages := messages + [Message(t.role, Some(text), [], "")];
      case Parts(parts) =>
        if t.role == "assistant" {
          var text := Join(Texts(parts), "");
          var content := if text != "" then Some(text) else None;
          messages := messages + [Message("assistant", content, Calls(parts, stringify), "")];
        } else if t.role == "user" {
          ResultsAreResults(parts);
          var results := Results(parts);
          if |results| > 0 {
            for k := 0 to |results|
              invariant messages == before + ToolMessages(results)[..k]
            {
              messages := messages + [ToolMessage(results[k])];
            }
            var text := Join(Texts(parts), "");
            if text != "" {
              messages := messages + [Message("user", Some(text), [], "")];
            }
          } else {
            messages := messages + [Message("user", Some(Join(Texts(parts), "\n")), [], "")];
          }
        }
    }
  }

  // ------------------------------------------------------------- what is said

  /** The texts of the parts in order, with the separator between two of them. */
  function TextWith<J>(parts: seq<Part<J>>, separator: string): Option<string> {
    if parts == [] then None else
    match (TextWith(parts[..|parts| - 1], separator), parts[|parts| - 1])
    case (None, Text(t)) => Some(t)
    case (Some(before), Text(t)) => Some(before + separator + t)
    case (before, _) => before
  }

  function OrNothing(o: Option<string>): string {
    if o == None then "" else o.value
  }

  function Concat(texts: seq<string>): string {
    if texts == [] then "" else Concat(texts[..|texts| - 1]) + texts[|texts| - 1]
  }

  /** A tool message says what the result held: its text, its texts one after the other, or nothing. */
  predicate Carries(content: Option<string>, r: ResultContent) {
    match r
    case PlainResult(t) => content == Some(t)
    case PartsResult(ts) => content == Some(Concat(ts))
    case NoResult => content == Some("")
  }

  function UsesIn<J>(parts: seq<Part<J>>): seq<Part<J>> {
    if parts == [] then [] else
    UsesIn(parts[..|parts| - 1]) + if parts[|parts| - 1].ToolUse? then [parts[|parts| - 1]] else []
  }

  function AnswersIn<J>(parts: seq<Part<J>>): seq<Part<J>> {
    if parts == [] then [] else
    AnswersIn(parts[..|parts| - 1]) + if parts[|parts| - 1].ToolResult? then [parts[|parts| - 1]] else []
  }

  /** The tool_use blocks of assistant turns, in source order. */
  function SourceUses<J>(ts: seq<Turn<J>>): seq<Part<J>> {
    if ts == [] then [] else
    var t := ts[|ts| - 1];
    SourceUses(ts[..|ts| - 1]) + if t.content.Parts? && t.role == "assistant" then UsesIn(t.content.parts) else []
  }

  /** What a turn answers.  A plain turn is passed on under its own role, so one with the role of a tool comes
      out as an answer without an id. */
  function AnswersOf<J>(t: Turn<J>): seq<Part<J>> {
    match t.content
    case Plain(text) => if t.role == "tool" then [ToolResult("", PlainResult(text))] else []
    case Parts(parts) => if t.role == "user" then AnswersIn(parts) else []
  }

  /** The tool_result blocks of user turns, in source order. */
  function SourceAnswers<J>(ts: seq<Turn<J>>): seq<Part<J>> {
    if ts == [] then [] else SourceAnswers(ts[..|ts| - 1]) + AnswersOf(ts[|ts| - 1])
  }

  /** Who speaks and the text, None where an assistant turn has no text at all. */
  type Speech = (string, Option<string>)

  function SpokenBy<J>(t: Turn<J>): seq<Speech> {
    match t.content
    case Plain(text) => if t.role == "tool" then [] else [(t.role, Some(text))]
    case Parts(parts) =>
      var run, lines := OrNothing(TextWith(parts, "")), OrNothing(TextWith(parts, "\n"));
      if t.role == "assistant" then [("assistant", if run == "" then None else Some(run))]
      else if t.role != "user" then []
      else if AnswersIn(parts) == [] then [("user", Some(lines))]
      else if run == "" then [] else [("user", Some(run))]
  }

  function SourceSpeech<J>(ts: seq<Turn<J>>): seq<Speech> {
    if ts == [] then [] else SourceSpeech(ts[..|ts| - 1]) + SpokenBy(ts[|ts| - 1])
  }

  function Lines(texts: seq<string>): string {
    if texts == [] then "" else
    if |texts| == 1 then texts[0] else Lines(texts[..|texts| - 1]) + "\n" + texts[|texts| - 1]
  }

  /** The system prompt: its text, or its texts on lines of their own. */
  function SystemSpeech(s: System): seq<Speech> {
    match s
    case NoSystem => []
    case SystemText(t) => if t == "" then [] else [("system", Some(t))]
    case SystemBlocks(ts) => [("system", Some(Lines(ts)))]
  }

  function AllCalls(ms: seq<Message>): seq<Call> {
    if ms == [] then [] else AllCalls(ms[..|ms| - 1]) + ms[|ms| - 1].toolCalls
  }

  function ToolAnswers(ms: seq<Message>): seq<Message> {
    if ms == [] then [] else
    ToolAnswers(ms[..|ms| - 1]) + if ms[|ms| - 1].role == "tool" then [ms[|ms| - 1]] else []
  }

  function Speeches(ms: seq<Message>): seq<Speech> {
    if ms == [] then [] else
    var m := ms[|ms| - 1];
    Speeches(ms[..|ms| - 1]) + if m.role == "tool" then [] else [(m.role, m.content)]
  }

  /** Call k is tool_use k: its id, its name and its printed input. */
  predicate SameCalls<J>(cs: seq<Call>, uses: seq<Part<J>>, stringify: J -> string) {
    && |cs| == |uses|
    && forall k :: 0 <= k < |cs| ==>
         && uses[k].ToolUse? && cs[k].id == uses[k].id && cs[k].name == uses[k].name
         && cs[k].arguments == stringify(uses[k].input)
  }

  /** Tool message i answers tool_result i with exactly its text. */
  predicate SameAnswers<J>(ms: seq<Message>, answers: seq<Part<J>>) {
    && |ms| == |answers|
    && forall i :: 0 <= i < |ms| ==>
         && answers[i].ToolResult? && ms[i].toolCallId == answers[i].toolUseId && ms[i].toolCalls == []
         && Carries(ms[i].content, answers[i].result)
  }

  lemma {:induction false} JoinSnoc(texts: seq<string>, t: string, separator: string)
    ensures Join(texts + [t], separator) == if texts == [] then t else Join(texts, separator) + separator + t
  {
    if texts == [] {
      assert texts + [t] == [t];
    } else {
      assert (texts + [t])[1..] == texts[1..] + [t];
      JoinSnoc(texts[1..], t, separator);
      if |texts| > 1 {
        assert texts[0] + separator + (Join(texts[1..], separator) + separator + t) ==
          texts[0] + separator + Join(texts[1..], separator) + separator + t;
      } else {
        assert texts[1..] == [];
      }
    }
  }

  lemma {:induction false} JoinIsConcat(texts: seq<string>)
    ensures Join(texts, "") == Concat(texts)
  {
    if texts != [] {
      var init, t := texts[..|texts| - 1], texts[|texts| - 1];
      JoinIsConcat(init);
      JoinSnoc(init, t, "");
      assert texts == init + [t];
      assert Concat(init) + "" + t == Concat(init) + t && "" + t == t;
    }
  }

  lemma {:induction false} JoinIsLines(texts: seq<string>)
    ensures Join(texts, "\n") == Lines(texts)
  {
    if |texts| > 1 {
      var init, t := texts[..|texts| - 1], texts[|texts| - 1];
      JoinIsLines(init);
      JoinSnoc(init, t, "\n");
      assert texts == init + [t];
    }
  }

  lemma {:induction false} TextsJoined<J>(parts: seq<Part<J>>, separator: string)
    ensures Texts(parts) == [] <==> TextWith(parts, separator) == None
    ensures Join(Texts(parts), separator) == OrNothing(TextWith(parts, separator))
  {
    if parts != [] {
      var init, p := parts[..|parts| - 1], parts[|parts| - 1];
      TextsJoined(init, separator);
      if p.Text? {
        JoinSnoc(Texts(init), p.text, separator);
      } else {
        assert Texts(init) + [] == Texts(init);
      }
    }
  }

  lemma {:induction false} CallsAreTheUses<J>(parts: seq<Part<J>>, stringify: J -> string)
    ensures SameCalls(Calls(parts, stringify), UsesIn(parts), stringify)
  {
    if parts != [] {
      CallsAreTheUses(parts[..|parts| - 1], stringify);
    }
  }

  lemma {:induction false} ResultsAreTheAnswers<J>(parts: seq<Part<J>>)
    ensures Results(parts) == AnswersIn(parts)
  {
    if parts != [] {
      ResultsAreTheAnswers(parts[..|parts| - 1]);
    }
  }

  lemma NothingSaid()
    ensures AllCalls([]) == [] && ToolAnswers([]) == [] && Speeches([]) == []
  {
  }

  lemma ViewsLast(ms: seq<Message>)
    requires ms != []
    ensures var init, m := ms[..|ms| - 1], ms[|ms| - 1];
      && AllCalls(ms) == AllCalls(init) + m.toolCalls
      && ToolAnswers(ms) == ToolAnswers(init) + (if m.role == "tool" then [m] else [])
      && Speeches(ms) == Speeches(init) + (if m.role == "tool" then [] else [(m.role, m.content)])
  {
  }

  lemma {:induction false} ViewsConcat(a: seq<Message>, b: seq<Message>)
    ensures AllCalls(a + b) == AllCalls(a) + AllCalls(b)
    ensures ToolAnswers(a + b) == ToolAnswers(a) + ToolAnswers(b)
    ensures Speeches(a + b) == Speeches(a) + Speeches(b)
    decreases |b|
  {
    hide AllCalls, ToolAnswers, Speeches;
    if b == [] {
      assert a + b == a;
      NothingSaid();
    } else {
      ViewsConcat(a, b[..|b| - 1]);
      ViewsLast(b);
      ViewsLast(a + b);
      assert (a + b)[..|a + b| - 1] == a + b[..|b| - 1];
    }
  }

  lemma ViewsOne(m: Message)
    ensures AllCalls([m]) == m.toolCalls
    ensures ToolAnswers([m]) == if m.role == "tool" then [m] else []
    ensures Speeches([m]) == if m.role == "tool" then [] else [(m.role, m.content)]
  {
    hide AllCalls, ToolAnswers, Speeches;
    ViewsLast([m]);
    assert [m][..0] == [];
    NothingSaid();
  }

  lemma OneAnswer<J>(p: Part<J>)
    requires p.ToolResult?
    ensures ToolMessage(p).role == "tool" && ToolMessage(p).toolCalls == []
    ensures SameAnswers([ToolMessage(p)], [p])
  {
    if p.result.PartsResult? {
      JoinIsConcat(p.result.texts);
    }
  }

  lemma SameAnswersConcat<J>(a: seq<Message>, b: seq<Message>, x: seq<Part<J>>, y: seq<Part<J>>)
    requires SameAnswers(a, x) && SameAnswers(b, y)
    ensures SameAnswers(a + b, x + y)
  {
    hide Carries;
  }

  lemma NoneAreSame<J>(stringify: J -> string)
    ensures SameCalls<J>([], [], stringify) && SameAnswers<J>([], [])
  {
  }

  lemma NoAnswers<J>()
    ensures SameAnswers<J>([], [])
  {
  }

  lemma {:induction false} ToolMessagesAnswer<J>(parts: seq<Part<J>>)
    requires forall p :: p in parts ==> p.ToolResult?
    ensures AllCalls(ToolMessages(parts)) == [] && Speeches(ToolMessages(parts)) == []
    ensures SameAnswers(ToolAnswers(ToolMessages(parts)), parts)
  {
    hide AllCalls, ToolAnswers, Speeches, SameAnswers, ToolMessage;
    if parts == [] {
      NothingSaid();
      assert ToolMessages(parts) == [];
      NoAnswers<J>();
    } else {
      var init, p := parts[..|parts| - 1], parts[|parts| - 1];
      ToolMessagesAnswer(init);
      assert p in parts;
      assert ToolMessages(parts) == ToolMessages(init) + [ToolMessage(p)];
      ViewsConcat(ToolMessages(init), [ToolMessage(p)]);
      ViewsOne(ToolMessage(p));
      OneAnswer(p);
      SameAnswersConcat(ToolAnswers(ToolMessages(init)), [ToolMessage(p)], init, [p]);
      assert parts == init + [p];
    }
  }

  lemma OneTurn<J>(t: Turn<J>)
    ensures SourceUses([t]) == if t.content.Parts? && t.role == "assistant" then UsesIn(t.content.parts) else []
    ensures SourceAnswers([t]) == AnswersOf(t)
  {
    assert [t][..0] == [];
  }

  lemma UserSays<J>(t: Turn<J>, stringify: J -> string)
    requires t.content.Parts? && t.role == "user"
    ensures AllCalls(TurnMessages(t, stringify)) == []
    ensures SameAnswers(ToolAnswers(TurnMessages(t, stringify)), AnswersIn(t.content.parts))
    ensures Speeches(TurnMessages(t, stringify)) == SpokenBy(t)
  {
    hide AllCalls, ToolAnswers, Speeches, SameAnswers, TextWith, Texts, Join, Calls, Results, AnswersIn, ToolMessages;
    var parts := t.content.parts;
    TextsJoined(parts, "");
    TextsJoined(parts, "\n");
    ResultsAreTheAnswers(parts);
    ResultsAreResults(parts);
    NothingSaid();
    NoneAreSame<J>(stringify);
    var results, text := Results(parts), Join(Texts(parts), "");
    if results != [] {
      var tail := if text != "" then [Message("user", Some(text), [], "")] else [];
      ToolMessagesAnswer(results);
      ViewsConcat(ToolMessages(results), tail);
      ViewsOne(Message("user", Some(text), [], ""));
      assert ToolAnswers(ToolMessages(results)) + [] == ToolAnswers(ToolMessages(results));
    } else {
      ViewsOne(Message("user", Some(Join(Texts(parts), "\n")), [], ""));
    }
  }

  lemma PlainAnswer<J>(text: string)
    ensures SameAnswers<J>([Message("tool", Some(text), [], "")], [ToolResult("", PlainResult(text))])
  {
  }

  lemma TurnSays<J>(t: Turn<J>, stringify: J -> string)
    ensures SameCalls(AllCalls(TurnMessages(t, stringify)), SourceUses([t]), stringify)
    ensures SameAnswers(ToolAnswers(TurnMessages(t, stringify)), SourceAnswers([t]))
    ensures Speeches(TurnMessages(t, stringify)) == SpokenBy(t)
  {
    hide AllCalls, ToolAnswers, Speeches, SameAnswers, SameCalls, TextWith, Texts, Join, Calls, Results;
    hide AnswersIn, UsesIn;
    OneTurn(t);
    NothingSaid();
    NoneAreSame<J>(stringify);
    match t.content {
      case Plain(text) =>
        ViewsOne(Message(t.role, Some(text), [], ""));
        PlainAnswer<J>(text);
      case Parts(parts) =>
        TextsJoined(parts, "");
        TextsJoined(parts, "\n");
        CallsAreTheUses(parts, stringify);
        ResultsAreTheAnswers(parts);
        ResultsAreResults(parts);
        if t.role == "assistant" {
          var text := Join(Texts(parts), "");
          ViewsOne(Message("assistant", if text != "" then Some(text) else None, Calls(parts, stringify), ""));
        } else if t.role == "user" {
          UserSays(t, stringify);
        }
    }
  }

  lemma SameConcat<J>(a: seq<Call>, b: seq<Call>, x: seq<Part<J>>, y: seq<Part<J>>, stringify: J -> string)
    requires SameCalls(a, x, stringify) && SameCalls(b, y, stringify)
    ensures SameCalls(a + b, x + y, stringify)
  {
  }

  /** Over any turns, nothing that is said is lost, changed or moved: calls with names and printed inputs,
      answers with their texts, and the speeches of all others. */
  lemma {:induction false} TurnsSay<J>(ts: seq<Turn<J>>, stringify: J -> string)
    ensures SameCalls(AllCalls(TurnsMessages(ts, stringify)), SourceUses(ts), stringify)
    ensures SameAnswers(ToolAnswers(TurnsMessages(ts, stringify)), SourceAnswers(ts))
    ensures Speeches(TurnsMessages(ts, stringify)) == SourceSpeech(ts)
  {
    hide TurnMessages, SameCalls, SameAnswers, AllCalls, ToolAnswers, Speeches, SpokenBy, UsesIn, AnswersOf;
    if ts == [] {
      NothingSaid();
      NoneAreSame<J>(stringify);
    } else {
      var init, t := ts[..|ts| - 1], ts[|ts| - 1];
      TurnsSay(init, stringify);
      TurnSays(t, stringify);
      OneTurn(t);
      var a, b := TurnsMessages(init, stringify), TurnMessages(t, stringify);
      ViewsConcat(a, b);
      SameConcat(AllCalls(a), AllCalls(b), SourceUses(init), SourceUses([t]), stringify);
      SameAnswersConcat(ToolAnswers(a), ToolAnswers(b), SourceAnswers(init), SourceAnswers([t]));
    }
  }

  lemma SystemSays(s: System)
    ensures AllCalls(SystemMessages(s)) == [] && ToolAnswers(SystemMessages(s)) == []
    ensures Speeches(SystemMessages(s)) == SystemSpeech(s)
  {
    hide AllCalls, ToolAnswers, Speeches, Join, Lines;
    NothingSaid();
    match s {
      case NoSystem =>
      case SystemText(t) => ViewsOne(Message("system", Some(t), [], ""));
      case SystemBlocks(ts) =>
        JoinIsLines(ts);
        ViewsOne(Message("system", Some(Join(ts, "\n")), [], ""));
    }
  }

  lemma RequestSays<J>(system: System, turns: seq<Turn<J>>, stringify: J -> string)
    ensures
      var messages := SystemMessages(system) + TurnsMessages(turns, stringify);
      && SameCalls(AllCalls(messages), SourceUses(turns), stringify)
      && SameAnswers(ToolAnswers(messages), SourceAnswers(turns))
      && Speeches(messages) == SystemSpeech(system) + SourceSpeech(turns)
  {
    hide TurnsMessages, SystemMessages, SameCalls, SameAnswers, AllCalls, ToolAnswers, Speeches;
    hide SourceUses, SourceAnswers, SourceSpeech, SystemSpeech;
    var a, b := SystemMessages(system), TurnsMessages(turns, stringify);
    SystemSays(system);
    TurnsSay(turns, stringify);
    ViewsConcat(a, b);
    assert [] + AllCalls(b) == AllCalls(b) && [] + ToolAnswers(b) == ToolAnswers(b);
  }

  /** The whole request: every tool_use becomes the call with its id, name and printed input; every
      tool_result the tool message with its text; every other text is said by its speaker; all in order. */
  method AnthropicToOpenAI<J>(system: System, turns: seq<Turn<J>>, stringify: J -> string)
    returns (messages: seq<Message>)
    ensures messages == SystemMessages(system) + TurnsMessages(turns, stringify)
    ensures SameCalls(AllCalls(messages), SourceUses(turns), stringify)
    ensures SameAnswers(ToolAnswers(messages), SourceAnswers(turns))
    ensures Speeches(messages) == SystemSpeech(system) + SourceSpeech(turns)
  {
    hide TurnMessages, SystemMessages, SameCalls, SameAnswers, AllCalls, ToolAnswers, Speeches;
    hide SourceUses, SourceAnswers, SourceSpeech, SystemSpeech;
    RequestSays(system, turns, stringify);
    messages := SystemMessages(system);
    ghost var head := messages;
    for n := 0 to |turns|
      invariant messages == head + TurnsMessages(turns[..n], stringify)
    {
      assert turns[..n + 1][..n] == turns[..n];
      messages := PushTurn(messages, turns[n], stringify);
    }
    assert turns[..|turns|] == turns;
  }

  // ------------------------------------------------------- call/result pairing

  function UseIdsOf<J>(parts: seq<Part<J>>): seq<string> {
    if parts == [] then [] else
    UseIdsOf(parts[..|parts| - 1]) + if parts[|parts| - 1].ToolUse? then [parts[|parts| - 1].id] else []
  }

  /** The ids an assistant turn asks for. */
  function UseIds<J>(t: Turn<J>): seq<string> {
    if t.role == "assistant" && t.content.Parts? then UseIdsOf(t.content.parts) else []
  }

  function ResultIdsOf<J>(parts: seq<Part<J>>): seq<string> {
    if parts == [] then [] else
    ResultIdsOf(parts[..|parts| - 1]) + if parts[|parts| - 1].ToolResult? then [parts[|parts| - 1].toolUseId] else []
  }

  /** The ids a user turn answers. */
  function ResultIds<J>(t: Turn<J>): seq<string> {
    if t.role == "user" && t.content.Parts? then ResultIdsOf(t.content.parts) else []
  }

  /** Each asking turn is directly followed by a user turn that answers exactly those ids; in a
      strict dialogue, nothing else answers. */
  predicate PairedTurns<J>(ts: seq<Turn<J>>, strict: bool) {
    if ts == [] then true
    else if UseIds(ts[0]) != [] then
      |ts| > 1 && multiset(ResultIds(ts[1])) == multiset(UseIds(ts[0])) && PairedTurns(ts[2..], strict)
    else (strict ==> ResultIds(ts[0]) == [] && ts[0].role != "tool") && PairedTurns(ts[1..], strict)
  }

  function CallIds(cs: seq<Call>): (ids: seq<string>)
    ensures |ids| == |cs|
  {
    seq(|cs|, i requires 0 <= i < |cs| => cs[i].id)
  }

  function ToolIds(ms: seq<Message>): (ids: seq<string>)
    ensures |ids| == |ms|
  {
    seq(|ms|, i requires 0 <= i < |ms| => ms[i].toolCallId)
  }

  /** Every message answers a call. */
  predicate AllTools(ms: seq<Message>) {
    forall m :: m in ms ==> m.role == "tool" && m.toolCalls == []
  }

  /** Each message with tool calls is directly followed by one tool message per id, before any
      other role; in a strict dialogue, there is no other tool message. */
  predicate PairedMessages(ms: seq<Message>, strict: bool)
    decreases |ms|
  {
    if ms == [] then true
    else if ms[0].toolCalls != [] then
      var k := |ms[0].toolCalls|;
      && |ms| > k
      && AllTools(ms[1..k + 1])
      && multiset(ToolIds(ms[1..k + 1])) == multiset(CallIds(ms[0].toolCalls))
      && PairedMessages(ms[k + 1..], strict)
    else (strict ==> ms[0].role != "tool") && PairedMessages(ms[1..], strict)
  }

  lemma {:induction false} CallsAreUses<J>(parts: seq<Part<J>>, stringify: J -> string)
    ensures CallIds(Calls(parts, stringify)) == UseIdsOf(parts)
  {
    if parts != [] {
      CallsAreUses(parts[..|parts| - 1], stringify);
    }
  }

  lemma {:induction false} ResultsCarryIds<J>(parts: seq<Part<J>>)
    ensures |Results(parts)| == |ResultIdsOf(parts)|
    ensures forall i :: 0 <= i < |Results(parts)| ==>
      Results(parts)[i].ToolResult? && Results(parts)[i].toolUseId == ResultIdsOf(parts)[i]
  {
    if parts != [] {
      ResultsCarryIds(parts[..|parts| - 1]);
    }
  }

  lemma EmptyTurns<J>(ts: seq<Turn<J>>, stringify: J -> string)
    requires ts == []
    ensures TurnsMessages(ts, stringify) == []
  {
  }

  lemma TurnsSnoc<J>(ts: seq<Turn<J>>, stringify: J -> string)
    requires ts != []
    ensures TurnsMessages(ts, stringify) ==
      TurnsMessages(ts[..|ts| - 1], stringify) + TurnMessages(ts[|ts| - 1], stringify)
  {
  }

  lemma {:induction false} TurnsFromFront<J>(ts: seq<Turn<J>>, stringify: J -> string)
    requires ts != []
    ensures TurnsMessages(ts, stringify) == TurnMessages(ts[0], stringify) + TurnsMessages(ts[1..], stringify)
    decreases |ts|
  {
    hide TurnMessages, TurnsMessages;
    TurnsSnoc(ts, stringify);
    if |ts| == 1 {
      EmptyTurns(ts[..0], stringify);
      EmptyTurns(ts[1..], stringify);
    } else {
      var init, rest := ts[..|ts| - 1], ts[1..];
      TurnsFromFront(init, stringify);
      TurnsSnoc(rest, stringify);
      assert init[1..] == rest[..|rest| - 1];
    }
  }

  lemma {:induction false} Quiet(ms: seq<Message>, rest: seq<Message>, strict: bool)
    requires forall m :: m in ms ==> m.toolCalls == [] && (strict ==> m.role != "tool")
    requires PairedMessages(rest, strict)
    ensures PairedMessages(ms + rest, strict)
    decreases |ms|
  {
    if ms == [] {
      assert ms + rest == rest;
    } else {
      assert ms[0] in ms && (ms + rest)[1..] == ms[1..] + rest;
      Quiet(ms[1..], rest, strict);
    }
  }

  /** A turn that asks for nothing yields no calls; it yields tool messages only as answers. */
  lemma QuietTurn<J>(t: Turn<J>, stringify: J -> string, rest: seq<Message>, strict: bool)
    requires UseIds(t) == [] && PairedMessages(rest, strict)
    requires strict ==> ResultIds(t) == [] && t.role != "tool"
    ensures PairedMessages(TurnMessages(t, stringify) + rest, strict)
  {
    var ms := TurnMessages(t, stringify);
    if t.content.Parts? {
      CallsAreUses(t.content.parts, stringify);
      ResultsCarryIds(t.content.parts);
    }
    Quiet(ms, rest, strict);
  }

  /** Neither calls nor answers. */
  predicate Silent(ms: seq<Message>) {
    forall m :: m in ms ==> m.toolCalls == [] && m.role != "tool"
  }

  /** A user turn with answers: its tool messages, then at most its text. */
  lemma AnswerShape<J>(t: Turn<J>, stringify: J -> string) returns (tools: seq<Message>, tail: seq<Message>)
    requires ResultIds(t) != []
    ensures TurnMessages(t, stringify) == tools + tail
    ensures AllTools(tools) && ToolIds(tools) == ResultIds(t)
    ensures Silent(tail)
  {
    hide UseIdsOf, ResultIdsOf, Texts, Calls, Results, Join;
    var parts := t.content.parts;
    ResultsAreResults(parts);
    ResultsCarryIds(parts);
    tools := ToolMessages(Results(parts));
    var text := Join(Texts(parts), "");
    tail := if text != "" then [Message("user", Some(text), [], "")] else [];
  }

  lemma AskShape<J>(t: Turn<J>, stringify: J -> string) returns (m: Message)
    requires UseIds(t) != []
    ensures TurnMessages(t, stringify) == [m] && CallIds(m.toolCalls) == UseIds(t) && m.role == "assistant"
  {
    CallsAreUses(t.content.parts, stringify);
    m := TurnMessages(t, stringify)[0];
  }

  lemma SameSize(a: seq<string>, b: seq<string>)
    requires multiset(a) == multiset(b)
    ensures |a| == |b|
  {
    assert |multiset(a)| == |a| && |multiset(b)| == |b|;
  }

  lemma Answered(ask: Message, tools: seq<Message>, rest: seq<Message>, strict: bool)
    requires |ask.toolCalls| == |tools| > 0 && AllTools(tools)
    requires multiset(ToolIds(tools)) == multiset(CallIds(ask.toolCalls))
    requires PairedMessages(rest, strict)
    ensures PairedMessages([ask] + tools + rest, strict)
  {
    var all := [ask] + tools + rest;
    assert all[1..|tools| + 1] == tools && all[|tools| + 1..] == rest;
  }

  lemma AnsweredTurn<J>(ask: Turn<J>, answer: Turn<J>, stringify: J -> string, rest: seq<Message>, strict: bool)
    requires UseIds(ask) != [] && multiset(ResultIds(answer)) == multiset(UseIds(ask))
    requires PairedMessages(rest, strict)
    ensures PairedMessages(TurnMessages(ask, stringify) + TurnMessages(answer, stringify) + rest, strict)
  {
    hide PairedMessages, UseIds, ResultIds, TurnMessages, AllTools;
    SameSize(ResultIds(answer), UseIds(ask));
    var m := AskShape(ask, stringify);
    var tools, tail := AnswerShape(answer, stringify);
    Quiet(tail, rest, strict);
    Answered(m, tools, tail + rest, strict);
    assert [m] + (tools + tail) + rest == [m] + tools + (tail + rest);
  }

  lemma NoTurns<J>(stringify: J -> string, strict: bool)
    ensures PairedMessages(TurnsMessages([], stringify), strict)
  {
  }

  /** Tool pairing survives the translation, with or without stray answers in the source. */
  lemma {:induction false} PairingIsPreserved<J>(ts: seq<Turn<J>>, stringify: J -> string, strict: bool)
    requires PairedTurns(ts, strict)
    ensures PairedMessages(TurnsMessages(ts, stringify), strict)
    decreases |ts|
  {
    hide TurnMessages, TurnsMessages, PairedMessages, UseIds, ResultIds;
    if ts == [] {
      NoTurns<J>(stringify, strict);
    } else if UseIds(ts[0]) != [] {
      TurnsFromFront(ts, stringify);
      TurnsFromFront(ts[1..], stringify);
      assert ts[1..][1..] == ts[2..];
      PairingIsPreserved(ts[2..], stringify, strict);
      var a, b := TurnMessages(ts[0], stringify), TurnMessages(ts[1], stringify);
      var rest := TurnsMessages(ts[2..], stringify);
      AnsweredTurn(ts[0], ts[1], stringify, rest, strict);
      assert a + (b + rest) == a + b + rest;
    } else {
      TurnsFromFront(ts, stringify);
      PairingIsPreserved(ts[1..], stringify, strict);
      QuietTurn(ts[0], stringify, TurnsMessages(ts[1..], stringify), strict);
    }
  }

  /** The request as a whole, system prompt included. */
  lemma RequestPairing<J>(system: System, ts: seq<Turn<J>>, stringify: J -> string, strict: bool)
    requires PairedTurns(ts, strict)
    ensures PairedMessages(SystemMessages(system) + TurnsMessages(ts, stringify), strict)
  {
    PairingIsPreserved(ts, stringify, strict);
    Quiet(SystemMessages(system), TurnsMessages(ts, stringify), strict);
  }

  // ------------------------------------------------------------- conservation

  function AllUseIds<J>(ts: seq<Turn<J>>): seq<string> {
    if ts == [] then [] else AllUseIds(ts[..|ts| - 1]) + UseIds(ts[|ts| - 1])
  }

  function AllResultIds<J>(ts: seq<Turn<J>>): seq<string> {
    if ts == [] then [] else AllResultIds(ts[..|ts| - 1]) + ResultIds(ts[|ts| - 1])
  }

  function AllCallIds(ms: seq<Message>): seq<string> {
    if ms == [] then [] else AllCallIds(ms[..|ms| - 1]) + CallIds(ms[|ms| - 1].toolCalls)
  }

  /** The ids of the tool messages that answer a call. */
  function AllToolIds(ms: seq<Message>): seq<string> {
    if ms == [] then [] else
    AllToolIds(ms[..|ms| - 1]) + if ms[|ms| - 1].role == "tool" then [ms[|ms| - 1].toolCallId] else []
  }

  lemma NoIds()
    ensures AllCallIds([]) == [] && AllToolIds([]) == []
  {
  }

  lemma AllIdsLast(ms: seq<Message>)
    requires ms != []
    ensures var last := ms[|ms| - 1];
      && AllCallIds(ms) == AllCallIds(ms[..|ms| - 1]) + CallIds(last.toolCalls)
      && AllToolIds(ms) == AllToolIds(ms[..|ms| - 1]) + if last.role == "tool" then [last.toolCallId] else []
  {
  }

  lemma {:induction false} AllIdsConcat(a: seq<Message>, b: seq<Message>)
    ensures AllCallIds(a + b) == AllCallIds(a) + AllCallIds(b)
    ensures AllToolIds(a + b) == AllToolIds(a) + AllToolIds(b)
    decreases |b|
  {
    hide AllCallIds, AllToolIds, CallIds;
    if b == [] {
      assert a + b == a;
      NoIds();
    } else {
      AllIdsConcat(a, b[..|b| - 1]);
      AllIdsLast(b);
      AllIdsLast(a + b);
      assert (a + b)[..|a + b| - 1] == a + b[..|b| - 1];
    }
  }

  lemma {:induction false} ToolsAnswer(ms: seq<Message>)
    requires AllTools(ms)
    ensures AllCallIds(ms) == [] && AllToolIds(ms) == ToolIds(ms)
  {
    if ms != [] {
      ToolsAnswer(ms[..|ms| - 1]);
      assert ms[|ms| - 1] in ms;
      assert ToolIds(ms) == ToolIds(ms[..|ms| - 1]) + [ms[|ms| - 1].toolCallId];
    }
  }

  lemma {:induction false} SilentHasNoIds(ms: seq<Message>)
    requires Silent(ms)
    ensures AllCallIds(ms) == [] && AllToolIds(ms) == []
  {
    if ms != [] {
      SilentHasNoIds(ms[..|ms| - 1]);
      assert ms[|ms| - 1] in ms;
    }
  }

  lemma OneMessage(m: Message)
    ensures AllCallIds([m]) == CallIds(m.toolCalls)
    ensures AllToolIds([m]) == if m.role == "tool" then [m.toolCallId] else []
  {
    assert [m][..0] == [];
  }

  lemma QuietShape<J>(t: Turn<J>, stringify: J -> string)
    requires UseIds(t) == [] && ResultIds(t) == [] && t.role != "tool"
    ensures Silent(TurnMessages(t, stringify))
  {
    hide UseIdsOf, ResultIdsOf, Texts, Join;
    if t.content.Parts? {
      CallsAreUses(t.content.parts, stringify);
      ResultsCarryIds(t.content.parts);
    }
  }

  lemma TurnConserves<J>(t: Turn<J>, stringify: J -> string)
    requires t.role != "tool"
    ensures AllCallIds(TurnMessages(t, stringify)) == UseIds(t)
    ensures AllToolIds(TurnMessages(t, stringify)) == ResultIds(t)
  {
    hide TurnMessages, AllCallIds, AllToolIds, UseIdsOf, ResultIdsOf, ToolIds, CallIds;
    if UseIds(t) != [] {
      var m := AskShape(t, stringify);
      OneMessage(m);
    } else if ResultIds(t) != [] {
      var tools, tail := AnswerShape(t, stringify);
      ToolsAnswer(tools);
      SilentHasNoIds(tail);
      AllIdsConcat(tools, tail);
    } else {
      QuietShape(t, stringify);
      SilentHasNoIds(TurnMessages(t, stringify));
    }
  }

  /** Whatever the pairing, no call and no answer is lost, invented or moved. */
  lemma {:induction false} IdsAreConserved<J>(ts: seq<Turn<J>>, stringify: J -> string)
    requires forall t :: t in ts ==> t.role != "tool"
    ensures AllCallIds(TurnsMessages(ts, stringify)) == AllUseIds(ts)
    ensures AllToolIds(TurnsMessages(ts, stringify)) == AllResultIds(ts)
  {
    hide TurnMessages;
    if ts != [] {
      IdsAreConserved(ts[..|ts| - 1], stringify);
      TurnConserves(ts[|ts| - 1], stringify);
      AllIdsConcat(TurnsMessages(ts[..|ts| - 1], stringify), TurnMessages(ts[|ts| - 1], stringify));
    }
  }
}

/** Status blocks of the setup steps: the printer (setup/status.ts) and the streaming parser
    (setup/lib/runner.ts). */
module StatusStream {
  import opened Wrappers
  import opened JsText

  const OPENING := "=== NANOCLAW SETUP: "
  const CLOSING := " ==="
  const END := "=== END ==="

  datatype Block = Block(kind: string, fields: map<string, string>)

  datatype Parser = Parser(lineBuf: string, current: Option<Block>, blocks: seq<Block>, transcript: string)

  const EMPTY := Parser("", None, [], "")

  // ------------------------------------------------------------------ lines

  function IndexOf(s: string, c: char): nat
    ensures IndexOf(s, c) <= |s| && c !in s[..IndexOf(s, c)]
    ensures IndexOf(s, c) < |s| ==> s[IndexOf(s, c)] == c
  {
    if s == [] || s[0] == c then 0 else 1 + IndexOf(s[1..], c)
  }

  function NonSpaces(s: string): (n: nat)
    ensures n <= |s|
  {
    if s == [] || IsSpace(s[0]) then 0 else 1 + NonSpaces(s[1..])
  }

  /** The pattern ^=== NANOCLAW SETUP: (\S+) === : the run of non-spaces cannot be shortened, for a
      space must follow it. */
  function StartKind(line: string): Option<string> {
    if !(OPENING <= line) then None else
    var rest := line[|OPENING|..];
    var n := NonSpaces(rest);
    if n > 0 && CLOSING <= rest[n..] then Some(rest[..n]) else None
  }

  /** A field line gives a key and a value; a line without a colon or with an empty key none. */
  function ParseField(line: string): Option<(string, string)> {
    var colon := IndexOf(line, ':');
    if colon == |line| || Trim(line[..colon]) == "" then None
    else Some((Trim(line[..colon]), Trim(line[colon + 1..])))
  }

  function Processed(p: Parser, line: string): Parser {
    if StartKind(line) != None then p.(current := Some(Block(StartKind(line).value, map[])))
    else if END <= line then
      if p.current == None then p else p.(blocks := p.blocks + [p.current.value], current := None)
    else if p.current == None || ParseField(line) == None then p
    else
      var b, f := p.current.value, ParseField(line).value;
      p.(current := Some(b.(fields := b.fields[f.0 := f.1])))
  }

  /** Process every complete line in the buffer. */
  function Drained(p: Parser): Parser
    decreases |p.lineBuf|
  {
    var i := IndexOf(p.lineBuf, '\n');
    if i == |p.lineBuf| then p
    else Drained(Processed(p, p.lineBuf[..i]).(lineBuf := p.lineBuf[i + 1..]))
  }

  function Written(p: Parser, chunk: string): Parser {
    Drained(p.(lineBuf := p.lineBuf + chunk, transcript := p.transcript + chunk))
  }

  lemma DrainStep(p: Parser)
    ensures var i := IndexOf(p.lineBuf, '\n');
            Drained(p) == if i == |p.lineBuf| then p
                          else Drained(Processed(p, p.lineBuf[..i]).(lineBuf := p.lineBuf[i + 1..]))
  {
    hide Processed;
  }

  lemma ProcessedFrame(p: Parser, line: string, buf: string, t: string)
    ensures Processed(p.(lineBuf := buf, transcript := t), line) == Processed(p, line).(lineBuf := buf, transcript := t)
  {
    hide StartKind, ParseField;
  }

  lemma WrittenIsDrained(p: Parser, chunk: string)
    ensures Written(p, chunk) == Drained(p.(lineBuf := p.lineBuf + chunk, transcript := p.transcript + chunk))
  {
  }

  /** One turn of the loop: cut off the first line, then process it. */
  lemma DrainTurn(p: Parser)
    requires IndexOf(p.lineBuf, '\n') < |p.lineBuf|
    ensures var i := IndexOf(p.lineBuf, '\n');
      Drained(Processed(p.(lineBuf := p.lineBuf[i + 1..]), p.lineBuf[..i])) == Drained(p)
  {
    hide StartKind, ParseField, Drained;
    var i := IndexOf(p.lineBuf, '\n');
    ProcessedFrame(p, p.lineBuf[..i], p.lineBuf[i + 1..], p.transcript);
    DrainStep(p);
  }

  lemma DrainEnd(p: Parser)
    requires IndexOf(p.lineBuf, '\n') == |p.lineBuf|
    ensures Drained(p) == p
  {
  }

  lemma {:induction false} NonSpacesAre(s: string)
    ensures forall i :: 0 <= i < NonSpaces(s) ==> !IsSpace(s[i])
    ensures NonSpaces(s) < |s| ==> IsSpace(s[NonSpaces(s)])
  {
    hide IsSpace;
    if s != [] && !IsSpace(s[0]) {
      NonSpacesAre(s[1..]);
    }
  }

  lemma SpaceIsSpace()
    ensures IsSpace(' ')
  {
  }

  lemma {:induction false} RunOfNonSpaces(s: string, t: string)
    requires (forall i :: 0 <= i < |s| ==> !IsSpace(s[i])) && t != [] && IsSpace(t[0])
    ensures NonSpaces(s + t) == |s|
  {
    if s == [] {
      assert s + t == t;
    } else {
      assert (s + t)[1..] == s[1..] + t;
      RunOfNonSpaces(s[1..], t);
    }
  }

  lemma MarkerOpens(line: string, kind: string)
    requires kind != "" && (forall c :: c in kind ==> !IsSpace(c))
    requires "=== NANOCLAW SETUP: " + kind + " ===" <= line
    ensures StartKind(line) == Some(kind)
  {
    hide IsSpace;
    var marker := "=== NANOCLAW SETUP: " + kind + " ===";
    assert marker[..|OPENING|] == OPENING && line[..|marker|] == marker;
    var rest, tail := line[|OPENING|..], line[|marker|..];
    assert rest == kind + (CLOSING + tail);
    SpaceIsSpace();
    assert (CLOSING + tail)[0] == ' ';
    RunOfNonSpaces(kind, CLOSING + tail);
    assert rest[|kind|..] == CLOSING + tail && rest[..|kind|] == kind;
  }

  lemma TwoPrefixes(line: string, a: string, b: string, c: string)
    requires a <= line && b <= line[|a|..] && c <= line[|a|..][|b|..]
    ensures a + b + c <= line
  {
    var rest := line[|a|..];
    var tail := rest[|b|..][|c|..];
    assert line == a + rest && rest == b + rest[|b|..] && rest[|b|..] == c + tail;
    assert line == a + b + c + tail;
  }

  lemma OpeningHasMarker(line: string, kind: string)
    requires StartKind(line) == Some(kind)
    ensures kind != "" && forall c :: c in kind ==> !IsSpace(c)
    ensures "=== NANOCLAW SETUP: " + kind + " ===" <= line
  {
    hide IsSpace;
    var rest := line[|OPENING|..];
    NonSpacesAre(rest);
    TwoPrefixes(line, OPENING, kind, CLOSING);
  }

  /** A line opens a block of a kind exactly if it starts with the marker around that kind, which is not
      empty and has no whitespace. */
  lemma OpensIff(line: string, kind: string)
    ensures StartKind(line) == Some(kind) <==>
      && kind != "" && (forall c :: c in kind ==> !IsSpace(c))
      && "=== NANOCLAW SETUP: " + kind + " ===" <= line
  {
    hide IsSpace, StartKind;
    if StartKind(line) == Some(kind) {
      OpeningHasMarker(line, kind);
    } else if kind != "" && (forall c :: c in kind ==> !IsSpace(c)) {
      if "=== NANOCLAW SETUP: " + kind + " ===" <= line {
        MarkerOpens(line, kind);
      }
    }
  }

  lemma IndexOfFirst(s: string, t: string, c: char)
    requires c !in s
    ensures IndexOf(s + [c] + t, c) == |s|
  {
    var u := s + [c] + t;
    assert u[|s|] == c;
    assert forall k :: 0 <= k < |s| ==> u[k] == s[k];
    assert forall j :: |s| < j <= |u| ==> c in u[..j] by {
      forall j | |s| < j <= |u| ensures c in u[..j] {
        assert u[..j][|s|] == c;
      }
    }
  }

  /** A line is a field exactly if there is something before its first colon: key and value are what stands
      before and after it, trimmed. */
  lemma FieldIs(before: string, after: string)
    requires ':' !in before
    ensures ParseField(before) == None
    ensures ParseField(before + ":" + after) ==
      if Trim(before) == "" then None else Some((Trim(before), Trim(after)))
  {
    hide Trim, IndexOf;
    var line := before + ":" + after;
    IndexOfFirst(before, after, ':');
    assert line[..|before|] == before && line[|before| + 1..] == after;
  }

  class StatusStream {
    var lineBuf: string
    var current: Option<Block>
    var blocks: seq<Block>
    var transcript: string

    ghost function Now(): Parser
      reads this
    {
      Parser(lineBuf, current, blocks, transcript)
    }

    constructor ()
      ensures Now() == EMPTY
    {
      lineBuf, current, blocks, transcript := "", None, [], "";
    }

    method Write(chunk: string)
      modifies this
      ensures Now() == Written(old(Now()), chunk)
    {
      hide Processed, Drained, IndexOf, Written;
      ghost var start := Now();
      transcript := transcript + chunk;
      lineBuf := lineBuf + chunk;
      WrittenIsDrained(start, chunk);
      var idx := IndexOf(lineBuf, '\n');
      while idx < |lineBuf|
        invariant idx == IndexOf(lineBuf, '\n')
        invariant Drained(Now()) == Written(start, chunk)
        decreases |lineBuf|
      {
        var line := lineBuf[..idx];
        DrainTurn(Now());
        lineBuf := lineBuf[idx + 1..];
        ProcessLine(line);
        idx := IndexOf(lineBuf, '\n');
      }
      DrainEnd(Now());
    }

    method ProcessLine(line: string)
      modifies this
      ensures Now() == Processed(old(Now()), line) && |lineBuf| == |old(lineBuf)|
      ensures lineBuf == old(lineBuf) && transcript == old(transcript)
      // An opening line discards a block still open, a closing one ends it, and only inside one are there fields.
      ensures StartKind(line) != None ==>
        current == Some(Block(StartKind(line).value, map[])) && blocks == old(blocks)
      ensures StartKind(line) == None && "=== END ===" <= line ==>
        current == None && blocks == old(blocks) + if old(current) == None then [] else [old(current).value]
      ensures StartKind(line) == None && !("=== END ===" <= line) ==>
        && blocks == old(blocks)
        && current ==
             if old(current) == None || ParseField(line) == None then old(current)
             else
               var f := ParseField(line).value;
               Some(Block(old(current).value.kind, old(current).value.fields[f.0 := f.1]))
    {
      var start := StartKind(line);
      if start != None {
        current := Some(Block(start.value, map[]));
        return;
      }
      if END <= line {
        if current != None {
          blocks := blocks + [current.value];
          current := None;
        }
        return;
      }
      if current == None {
        return;
      }
      var colon := IndexOf(line, ':');
      if colon == |line| {
        return;
      }
      var key, value := Trim(line[..colon]), Trim(line[colon + 1..]);
      if key != "" {
        current := Some(current.value.(fields := current.value.fields[key := value]));
      }
    }
  }

  // ---------------------------------------------------------- chunk boundaries

  lemma {:induction false} IndexOfPresent(s: string, c: char)
    requires c in s
    ensures IndexOf(s, c) < |s|
  {
    if s[0] != c {
      IndexOfPresent(s[1..], c);
    }
  }

  lemma IndexOfStays(s: string, t: string, c: char)
    requires IndexOf(s, c) < |s|
    ensures IndexOf(s + t, c) == IndexOf(s, c)
  {
    var i := IndexOf(s, c);
    assert s + t == s[..i] + [c] + (s[i + 1..] + t);
    IndexOfFirst(s[..i], s[i + 1..] + t, c);
  }

  /** Draining first and appending later makes no difference. */
  lemma {:induction false} DrainThenAppend(p: Parser, more: string, t: string)
    ensures Drained(Drained(p).(lineBuf := Drained(p).lineBuf + more, transcript := t))
         == Drained(p.(lineBuf := p.lineBuf + more, transcript := t))
    decreases |p.lineBuf|
  {
    hide Processed, Drained, IndexOf;
    var i := IndexOf(p.lineBuf, '\n');
    DrainStep(p);
    if i < |p.lineBuf| {
      var line, rest := p.lineBuf[..i], p.lineBuf[i + 1..];
      var q := Processed(p, line).(lineBuf := rest);
      DrainThenAppend(q, more, t);
      IndexOfStays(p.lineBuf, more, '\n');
      var p' := p.(lineBuf := p.lineBuf + more, transcript := t);
      assert p'.lineBuf[..i] == line && p'.lineBuf[i + 1..] == rest + more;
      ProcessedFrame(p, line, p'.lineBuf, t);
      DrainStep(p');
    }
  }

  lemma ProcessedKeepsTranscript(p: Parser, line: string)
    ensures Processed(p, line).transcript == p.transcript
  {
    hide StartKind, ParseField;
  }

  lemma {:induction false} DrainKeepsTranscript(p: Parser)
    ensures Drained(p).transcript == p.transcript
    decreases |p.lineBuf|
  {
    hide Processed, Drained, IndexOf;
    var i := IndexOf(p.lineBuf, '\n');
    DrainStep(p);
    if i < |p.lineBuf| {
      ProcessedKeepsTranscript(p, p.lineBuf[..i]);
      DrainKeepsTranscript(Processed(p, p.lineBuf[..i]).(lineBuf := p.lineBuf[i + 1..]));
    }
  }

  lemma TwoWrites(p: Parser, a: string, b: string)
    ensures Written(Written(p, a), b) == Written(p, a + b)
  {
    hide Processed, Drained;
    var q := p.(lineBuf := p.lineBuf + a, transcript := p.transcript + a);
    DrainKeepsTranscript(q);
    DrainThenAppend(q, b, p.transcript + a + b);
    assert p.lineBuf + a + b == p.lineBuf + (a + b);
    assert p.transcript + a + b == p.transcript + (a + b);
  }

  function WrittenAll(p: Parser, chunks: seq<string>): Parser
    decreases |chunks|
  {
    if chunks == [] then p else WrittenAll(Written(p, chunks[0]), chunks[1..])
  }

  function Concat(chunks: seq<string>): string {
    if chunks == [] then "" else chunks[0] + Concat(chunks[1..])
  }

  lemma WriteNothing(p: Parser)
    requires '\n' !in p.lineBuf
    ensures Written(p, "") == p
  {
    assert p.lineBuf + "" == p.lineBuf && p.transcript + "" == p.transcript;
  }

  lemma {:induction false} DrainedHasNoLine(p: Parser)
    ensures '\n' !in Drained(p).lineBuf
    decreases |p.lineBuf|
  {
    var i := IndexOf(p.lineBuf, '\n');
    if i < |p.lineBuf| {
      DrainedHasNoLine(Processed(p, p.lineBuf[..i]).(lineBuf := p.lineBuf[i + 1..]));
    } else {
      assert p.lineBuf[..i] == p.lineBuf;
    }
  }

  lemma WrittenLeavesNoLine(p: Parser, chunk: string)
    ensures '\n' !in Written(p, chunk).lineBuf
  {
    DrainedHasNoLine(p.(lineBuf := p.lineBuf + chunk, transcript := p.transcript + chunk));
  }

  /** However the text is cut into chunks, the parser ends in the same state. */
  lemma {:induction false} ChunksDoNotMatter(p: Parser, chunks: seq<string>)
    requires '\n' !in p.lineBuf
    ensures WrittenAll(p, chunks) == Written(p, Concat(chunks))
    decreases |chunks|
  {
    hide Written;
    if chunks == [] {
      WriteNothing(p);
    } else {
      var q := Written(p, chunks[0]);
      assert '\n' !in q.lineBuf by {
        WrittenLeavesNoLine(p, chunks[0]);
      }
      ChunksDoNotMatter(q, chunks[1..]);
      TwoWrites(p, chunks[0], Concat(chunks[1..]));
    }
  }

  // ---------------------------------------------------------------- printing

  type Field = (string, string)

  function FieldLine(f: Field): string {
    f.0 + ": " + f.1
  }

  function Header(step: string): string {
    OPENING + step + CLOSING
  }

  function FieldLines(fs: seq<Field>): seq<string> {
    if fs == [] then [] else [FieldLine(fs[0])] + FieldLines(fs[1..])
  }

  function BlockLines(step: string, fs: seq<Field>): seq<string> {
    [Header(step)] + FieldLines(fs) + [END]
  }

  /** Lines as console.log prints them, each closed by a newline. */
  function Printed(lines: seq<string>): string {
    if lines == [] then "" else lines[0] + "\n" + Printed(lines[1..])
  }

  lemma {:induction false} JoinThenNewline(lines: seq<string>)
    requires lines != []
    ensures Join(lines, "\n") + "\n" == Printed(lines)
  {
    if |lines| == 1 {
      assert Printed(lines[1..]) == "";
    } else {
      JoinThenNewline(lines[1..]);
    }
  }

  /** The printed text after its first line. */
  function PrintedBody(fields: seq<Field>): string {
    if fields == [] then "=== END ===\n" else fields[0].0 + ": " + fields[0].1 + "\n" + PrintedBody(fields[1..])
  }

  lemma {:induction false} BodyIsPrinted(fields: seq<Field>)
    ensures Printed(FieldLines(fields) + [END]) == PrintedBody(fields)
  {
    if fields == [] {
      assert [] + [END] == [END] && Printed([END][1..]) == "";
    } else {
      BodyIsPrinted(fields[1..]);
      assert (FieldLines(fields) + [END])[1..] == FieldLines(fields[1..]) + [END];
    }
  }

  /** fields in the order of Object.entries; the result is what console.log writes. */
  method EmitStatus(step: string, fields: seq<Field>) returns (printed: string)
    ensures printed == Printed(BlockLines(step, fields))
    ensures printed == "=== NANOCLAW SETUP: " + step + " ===\n" + PrintedBody(fields)
  {
    var lines := ["=== NANOCLAW SETUP: " + step + " ==="];
    for i := 0 to |fields|
      invariant lines + FieldLines(fields[i..]) == [Header(step)] + FieldLines(fields)
    {
      lines := lines + [fields[i].0 + ": " + fields[i].1];
      assert fields[i..][1..] == fields[i + 1..];
    }
    lines := lines + ["=== END ==="];
    assert lines == BlockLines(step, fields);
    JoinThenNewline(lines);
    printed := Join(lines, "\n") + "\n";
    BodyIsPrinted(fields);
    assert lines[1..] == FieldLines(fields) + [END];
    assert "=== NANOCLAW SETUP: " + step + " ===" + "\n" == "=== NANOCLAW SETUP: " + step + " ===\n";
  }

  // --------------------------------------------------------------- round trip

  lemma PlainKeyIsRead(f: Field)
    requires ':' !in f.0
    ensures ParseField(FieldLine(f)) == if Trim(f.0) == "" then None else Some((Trim(f.0), Trim(f.1)))
  {
    hide Trim, IndexOf;
    var line := FieldLine(f);
    assert line == f.0 + [':'] + (" " + f.1);
    IndexOfFirst(f.0, " " + f.1, ':');
    assert line[..|f.0|] == f.0 && line[|f.0| + 1..] == " " + f.1;
    TrimAfterSpace(f.1);
  }

  lemma TrimIsShorter(s: string)
    ensures |Trim(s)| <= |s|
  {
  }

  lemma ColonCutsKey(f: Field)
    requires ':' in f.0
    ensures ParseField(FieldLine(f)) != None ==> |ParseField(FieldLine(f)).value.0| < |f.0|
  {
    hide Trim, IndexOf;
    var j := IndexOf(f.0, ':');
    IndexOfPresent(f.0, ':');
    assert FieldLine(f) == f.0 + (": " + f.1);
    IndexOfStays(f.0, ": " + f.1, ':');
    TrimIsShorter(FieldLine(f)[..j]);
  }

  /** What is read back for one printed field, exactly when: the key is non-empty, trimmed and
      free of colons, and the value is trimmed. */
  lemma FieldRoundTrip(f: Field)
    ensures ParseField(FieldLine(f)) == Some(f) <==>
      f.0 != "" && ':' !in f.0 && IsTrimmed(f.0) && IsTrimmed(f.1)
  {
    hide ParseField, FieldLine, IsTrimmed, Trim;
    if ':' !in f.0 {
      PlainKeyIsRead(f);
      TrimFixes(f.0);
      TrimFixes(f.1);
    } else {
      ColonCutsKey(f);
    }
  }

  /** The parser would take the line for an opening or closing marker. */
  predicate IsMarker(line: string) {
    StartKind(line) != None || END <= line
  }

  predicate GoodField(f: Field) {
    && f.0 != "" && ':' !in f.0 && IsTrimmed(f.0) && IsTrimmed(f.1)
    && '\n' !in f.0 && '\n' !in f.1 && !IsMarker(FieldLine(f))
  }

  /** A key that does not start with = never makes a marker. */
  lemma OrdinaryKeysAreSafe(f: Field)
    requires f.0 != "" && f.0[0] != '='
    ensures !IsMarker(FieldLine(f))
  {
    assert FieldLine(f)[0] == f.0[0];
    assert OPENING[0] == '=' && END[0] == '=';
  }

  predicate GoodStep(step: string) {
    step != "" && forall i :: 0 <= i < |step| ==> !IsSpace(step[i])
  }

  /** Noise between blocks: any line that does not open a block. */
  datatype Item = Status(step: string, fields: seq<Field>) | Noise(line: string)

  predicate GoodItem(it: Item) {
    match it
    case Status(step, fs) => GoodStep(step) && forall f :: f in fs ==> GoodField(f)
    case Noise(line) => '\n' !in line && StartKind(line) == None
  }

  function ItemLines(it: Item): seq<string> {
    match it
    case Status(step, fs) => BlockLines(step, fs)
    case Noise(line) => [line]
  }

  function AllLines(items: seq<Item>): seq<string> {
    if items == [] then [] else ItemLines(items[0]) + AllLines(items[1..])
  }

  /** Everything written to the stream: each block as emitStatus prints it, each noise line closed by
      a newline. */
  function Output(items: seq<Item>): string {
    if items == [] then "" else Printed(ItemLines(items[0])) + Output(items[1..])
  }

  lemma {:induction false} PrintedConcat(a: seq<string>, b: seq<string>)
    ensures Printed(a + b) == Printed(a) + Printed(b)
  {
    if a == [] {
      assert a + b == b;
    } else {
      assert (a + b)[1..] == a[1..] + b;
      PrintedConcat(a[1..], b);
    }
  }

  lemma {:induction false} OutputIsPrinted(items: seq<Item>)
    ensures Output(items) == Printed(AllLines(items))
  {
    hide ItemLines;
    if items != [] {
      OutputIsPrinted(items[1..]);
      PrintedConcat(ItemLines(items[0]), AllLines(items[1..]));
    }
  }

  /** Later fields win, as in an object. */
  function FieldMap(m: map<string, string>, fs: seq<Field>): map<string, string>
    decreases |fs|
  {
    if fs == [] then m else FieldMap(m[fs[0].0 := fs[0].1], fs[1..])
  }

  function BlocksOf(items: seq<Item>): seq<Block> {
    if items == [] then []
    else if items[0].Status? then [Block(items[0].step, FieldMap(map[], items[0].fields))] + BlocksOf(items[1..])
    else BlocksOf(items[1..])
  }

  function ProcessedAll(p: Parser, lines: seq<string>): Parser
    decreases |lines|
  {
    if lines == [] then p else ProcessedAll(Processed(p, lines[0]), lines[1..])
  }

  lemma {:induction false} ProcessedConcat(p: Parser, a: seq<string>, b: seq<string>)
    ensures ProcessedAll(p, a + b) == ProcessedAll(ProcessedAll(p, a), b)
    decreases |a|
  {
    hide Processed;
    if a == [] {
      assert a + b == b;
    } else {
      assert (a + b)[1..] == a[1..] + b;
      ProcessedConcat(Processed(p, a[0]), a[1..], b);
    }
  }

  /** Printed lines come apart again. */
  lemma {:induction false} DrainPrinted(p: Parser, lines: seq<string>)
    requires p.lineBuf == "" && forall l :: l in lines ==> '\n' !in l
    ensures Drained(p.(lineBuf := Printed(lines))) == ProcessedAll(p, lines)
    decreases |lines|
  {
    hide Processed;
    DrainStep(p.(lineBuf := Printed(lines)));
    if lines == [] {
      assert p.(lineBuf := "") == p;
    } else {
      var l, rest := lines[0], Printed(lines[1..]);
      var buf := Printed(lines);
      assert l in lines;
      assert buf == l + ['\n'] + rest;
      IndexOfFirst(l, rest, '\n');
      assert buf[..|l|] == l && buf[|l| + 1..] == rest;
      ProcessedFrame(p, l, buf, p.transcript);
      ProcessedFrame(p, l, "", p.transcript);
      assert p.(lineBuf := "", transcript := p.transcript) == p;
      var q := Processed(p, l);
      assert Processed(p.(lineBuf := buf), l).(lineBuf := rest) == q.(lineBuf := rest);
      DrainPrinted(q, lines[1..]);
    }
  }

  lemma HeaderOpens(p: Parser, step: string)
    requires GoodStep(step)
    ensures Processed(p, Header(step)) == p.(current := Some(Block(step, map[])))
  {
    var line := Header(step);
    assert OPENING <= line && line[|OPENING|..] == step + CLOSING;
    RunOfNonSpaces(step, CLOSING);
    assert (step + CLOSING)[|step|..] == CLOSING && (step + CLOSING)[..|step|] == step;
  }

  lemma EndCloses(p: Parser, b: Block)
    requires p.current == Some(b)
    ensures Processed(p, END) == p.(blocks := p.blocks + [b], current := None)
  {
    assert OPENING[4] == 'N' && END[4] == 'E';
  }

  lemma FieldIsRead(p: Parser, b: Block, f: Field)
    requires p.current == Some(b) && GoodField(f)
    ensures Processed(p, FieldLine(f)) == p.(current := Some(b.(fields := b.fields[f.0 := f.1])))
  {
    hide ParseField, StartKind, IsTrimmed, FieldLine;
    FieldRoundTrip(f);
  }

  lemma {:induction false} FieldsAreRead(p: Parser, b: Block, fs: seq<Field>)
    requires p.current == Some(b) && forall f :: f in fs ==> GoodField(f)
    ensures ProcessedAll(p, FieldLines(fs)) == p.(current := Some(b.(fields := FieldMap(b.fields, fs))))
    decreases |fs|
  {
    hide ParseField, IsMarker, IsTrimmed, FieldLine;
    if fs != [] {
      var f := fs[0];
      assert f in fs;
      FieldIsRead(p, b, f);
      var b' := b.(fields := b.fields[f.0 := f.1]);
      FieldsAreRead(p.(current := Some(b')), b', fs[1..]);
      assert FieldLines(fs)[1..] == FieldLines(fs[1..]);
    }
  }

  lemma OneLine(p: Parser, line: string)
    ensures ProcessedAll(p, [line]) == Processed(p, line)
  {
    hide Processed;
    assert ProcessedAll(Processed(p, line), [line][1..]) == Processed(p, line);
  }

  lemma ItemIsRead(p: Parser, it: Item)
    requires p.current == None && GoodItem(it)
    ensures ProcessedAll(p, ItemLines(it)) == p.(blocks := p.blocks + BlocksOf([it]))
  {
    match it {
      case Status(step, fs) =>
        hide Processed, FieldLines, Header, GoodField, GoodStep;
        var b := Block(step, map[]);
        HeaderOpens(p, step);
        var q := p.(current := Some(b));
        FieldsAreRead(q, b, fs);
        var r := q.(current := Some(b.(fields := FieldMap(map[], fs))));
        EndCloses(r, r.current.value);
        ProcessedConcat(p, [Header(step)] + FieldLines(fs), [END]);
        ProcessedConcat(p, [Header(step)], FieldLines(fs));
        OneLine(p, Header(step));
        OneLine(r, END);
        assert BlocksOf([it]) == [r.current.value];
      case Noise(line) =>
        OneLine(p, line);
        assert p.blocks + [] == p.blocks;
        assert BlocksOf([it]) == [];
    }
  }

  lemma BlocksFromFront(items: seq<Item>)
    requires items != []
    ensures BlocksOf(items) == BlocksOf([items[0]]) + BlocksOf(items[1..])
  {
  }

  lemma {:induction false} ItemsAreRead(p: Parser, items: seq<Item>)
    requires p.current == None && forall it :: it in items ==> GoodItem(it)
    ensures ProcessedAll(p, AllLines(items)) == p.(blocks := p.blocks + BlocksOf(items))
    decreases |items|
  {
    hide GoodItem, ItemLines, Processed;
    if items == [] {
      assert p.blocks + [] == p.blocks;
    } else {
      var it := items[0];
      assert it in items;
      ItemIsRead(p, it);
      var q := p.(blocks := p.blocks + BlocksOf([it]));
      ProcessedConcat(p, ItemLines(it), AllLines(items[1..]));
      ItemsAreRead(q, items[1..]);
      BlocksFromFront(items);
      hide BlocksOf;
      assert p.blocks + BlocksOf([it]) + BlocksOf(items[1..]) == p.blocks + (BlocksOf([it]) + BlocksOf(items[1..]));
    }
  }

  lemma {:induction false} FieldLinesAre(fs: seq<Field>)
    ensures forall l :: l in FieldLines(fs) ==> exists f :: f in fs && l == FieldLine(f)
  {
    if fs != [] {
      FieldLinesAre(fs[1..]);
      forall l | l in FieldLines(fs) ensures exists f :: f in fs && l == FieldLine(f) {
        if l == FieldLine(fs[0]) {
          assert fs[0] in fs;
        } else {
          assert l in FieldLines(fs[1..]);
          var f :| f in fs[1..] && l == FieldLine(f);
          assert f in fs;
        }
      }
    }
  }

  lemma StatusLinesHaveNoNewline(step: string, fs: seq<Field>, l: string)
    requires GoodStep(step) && (forall f :: f in fs ==> GoodField(f)) && l in BlockLines(step, fs)
    ensures '\n' !in l
  {
    FieldLinesAre(fs);
    if l == Header(step) {
      assert '\n' !in step;
    } else if l != END {
      assert l in FieldLines(fs);
      var f :| f in fs && l == FieldLine(f);
    }
  }

  lemma {:induction false} LinesHaveNoNewline(items: seq<Item>)
    requires forall it :: it in items ==> GoodItem(it)
    ensures forall l :: l in AllLines(items) ==> '\n' !in l
    decreases |items|
  {
    if items != [] {
      var it := items[0];
      assert it in items;
      LinesHaveNoNewline(items[1..]);
      forall l | l in ItemLines(it) ensures '\n' !in l {
        if it.Status? {
          StatusLinesHaveNoNewline(it.step, it.fields, l);
        }
      }
    }
  }

  /** Blocks printed by emitStatus among noise lines, cut into chunks in any way, are read back
      exactly and in order, and nothing is left over. */
  lemma StatusRoundTrip(items: seq<Item>, chunks: seq<string>)
    requires forall it :: it in items ==> GoodItem(it)
    requires Concat(chunks) == Output(items)
    ensures WrittenAll(EMPTY, chunks) == Parser("", None, BlocksOf(items), Concat(chunks))
  {
    hide Drained, Processed, ProcessedAll, AllLines, Printed, GoodItem, BlocksOf, Output;
    OutputIsPrinted(items);
    var text := Concat(chunks);
    ChunksDoNotMatter(EMPTY, chunks);
    LinesHaveNoNewline(items);
    var p := EMPTY.(transcript := text);
    assert "" + text == text;
    assert Written(EMPTY, text) == Drained(p.(lineBuf := text));
    DrainPrinted(p, AllLines(items));
    ItemsAreRead(p, items);
    assert [] + BlocksOf(items) == BlocksOf(items);
  }
}

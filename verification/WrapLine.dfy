/** Greedy word wrap for terminal prose (setup/lib/theme.ts).  Colour escapes take no width. */
module WrapLine {
  import opened JsText

  // ------------------------------------------------------------ visible length

  const ESC: char := '\U{1B}'

  predicate IsParameter(c: char) {
    '0' <= c <= '9' || c == ';'
  }

  function Parameters(s: string): (n: nat)
    ensures n <= |s|
  {
    if s == [] || !IsParameter(s[0]) then 0 else 1 + Parameters(s[1..])
  }

  /** The length of a colour escape at the front: ESC [ parameters m. */
  function EscapeLength(s: string): (n: nat)
    ensures n <= |s|
  {
    if |s| < 2 || s[0] != ESC || s[1] != '[' then 0 else
    var n := 2 + Parameters(s[2..]);
    if n < |s| && s[n] == 'm' then n + 1 else 0
  }

  function VisibleLength(s: string): nat
    decreases |s|
  {
    if s == [] then 0
    else if EscapeLength(s) > 0 then VisibleLength(s[EscapeLength(s)..])
    else 1 + VisibleLength(s[1..])
  }

  lemma {:induction false} ParametersOf(params: string, rest: string)
    requires forall c :: c in params ==> '0' <= c <= '9' || c == ';'
    requires rest != "" && !('0' <= rest[0] <= '9' || rest[0] == ';')
    ensures Parameters(params + rest) == |params|
  {
    if params == [] {
      assert params + rest == rest;
    } else {
      assert params[0] in params && (params + rest)[1..] == params[1..] + rest;
      assert forall c :: c in params[1..] ==> c in params;
      ParametersOf(params[1..], rest);
    }
  }

  /** A colour escape, with any parameters, takes no width. */
  lemma EscapesTakeNone(params: string, rest: string)
    requires forall c :: c in params ==> '0' <= c <= '9' || c == ';'
    ensures VisibleLength("\U{1B}[" + params + "m" + rest) == VisibleLength(rest)
  {
    var s := "\U{1B}[" + params + "m" + rest;
    assert s[2..] == params + ("m" + rest);
    ParametersOf(params, "m" + rest);
    assert s[2 + |params|] == 'm' && s[3 + |params|..] == rest;
  }

  lemma {:induction false} ParametersAre(s: string)
    ensures forall k :: 0 <= k < Parameters(s) ==> '0' <= s[k] <= '9' || s[k] == ';'
  {
    if s != [] && IsParameter(s[0]) {
      ParametersAre(s[1..]);
    }
  }

  lemma EscapeIs(s: string)
    requires EscapeLength(s) > 0
    ensures var n := EscapeLength(s) - 1;
      && 2 <= n < |s| && s[0] == '\U{1B}' && s[1] == '[' && s[n] == 'm'
      && forall k :: 2 <= k < n ==> '0' <= s[k] <= '9' || s[k] == ';'
  {
    ParametersAre(s[2..]);
    assert forall k :: 2 <= k < |s| ==> s[k] == s[2..][k - 2];
  }

  /** Any other character takes one. */
  lemma OthersTakeOne(s: string)
    requires s != ""
    requires forall n :: 2 <= n < |s| && s[0] == '\U{1B}' && s[1] == '[' && s[n] == 'm' ==>
      exists k :: 2 <= k < n && !('0' <= s[k] <= '9' || s[k] == ';')
    ensures VisibleLength(s) == 1 + VisibleLength(s[1..])
  {
    if EscapeLength(s) > 0 {
      EscapeIs(s);
    }
  }

  lemma {:induction false} ParametersStopAtSpace(a: string, b: string)
    ensures Parameters(a + " " + b) == Parameters(a)
  {
    if a == [] {
      assert (a + " " + b)[0] == ' ';
    } else {
      assert (a + " " + b)[1..] == a[1..] + " " + b;
      ParametersStopAtSpace(a[1..], b);
    }
  }

  lemma EscapeStopsAtSpace(a: string, b: string)
    requires a != []
    ensures EscapeLength(a + " " + b) == EscapeLength(a)
  {
    var s := a + " " + b;
    if |a| >= 2 {
      assert s[2..] == a[2..] + " " + b;
      ParametersStopAtSpace(a[2..], b);
      var n := 2 + Parameters(a[2..]);
      assert s[n] == if n < |a| then a[n] else ' ';
    } else {
      assert s[1] == ' ';
    }
  }

  /** Escapes do not reach across a space, so lengths add up. */
  lemma {:induction false} VisibleLengthAdds(a: string, b: string)
    ensures VisibleLength(a + " " + b) == VisibleLength(a) + 1 + VisibleLength(b)
    decreases |a|
  {
    var s := a + " " + b;
    if a == [] {
      assert s[0] == ' ' && s[1..] == b;
    } else {
      EscapeStopsAtSpace(a, b);
      var n := if EscapeLength(a) > 0 then EscapeLength(a) else 1;
      assert s[n..] == a[n..] + " " + b;
      VisibleLengthAdds(a[n..], b);
    }
  }

  // ------------------------------------------------------------------- words

  /** line.split(' ') */
  function Words(line: string): (ws: seq<string>)
    ensures ws != []
  {
    if line == [] then [""]
    else if line[0] == ' ' then [""] + Words(line[1..])
    else
      var ws := Words(line[1..]);
      [[line[0]] + ws[0]] + ws[1..]
  }

  lemma {:induction false} WordsJoin(line: string)
    ensures Join(Words(line), " ") == line
  {
    if line != [] {
      var ws := Words(line[1..]);
      WordsJoin(line[1..]);
      if line[0] == ' ' {
        assert Words(line)[1..] == ws;
        assert line == "" + " " + line[1..];
      } else {
        assert Words(line)[1..] == ws[1..];
        assert line == [line[0]] + line[1..];
      }
    }
  }

  // ------------------------------------------------------------------ program

  /** The rows still to come when cur, of visible length curLen, is the row being filled.  A row of
      visible length 0 is replaced, not extended, by the next word. */
  function Fill(cur: string, curLen: nat, words: seq<string>, width: int): seq<string>
    decreases |words|
  {
    if words == [] then
      if cur != "" then [cur] else []
    else
      var n := VisibleLength(words[0]);
      if curLen == 0 then Fill(words[0], n, words[1..], width)
      else if curLen + 1 + n <= width then Fill(cur + " " + words[0], curLen + 1 + n, words[1..], width)
      else [cur] + Fill(words[0], n, words[1..], width)
  }

  /** The rows of a line; a line that fits is its own row. */
  function PrintedRows(line: string, width: int): seq<string> {
    if VisibleLength(line) <= width then [line] else Fill("", 0, Words(line), width)
  }

  method WrapLine(line: string, width: int) returns (wrapped: string)
    ensures wrapped == Join(PrintedRows(line, width), "\n")
  {
    if VisibleLength(line) <= width {
      return line;
    }
    var words := Words(line);
    var rows: seq<string> := [];
    var cur := "";
    var curLen: nat := 0;
    for i := 0 to |words|
      invariant Fill("", 0, words, width) == rows + Fill(cur, curLen, words[i..], width)
    {
      var word := words[i];
      var wLen := VisibleLength(word);
      assert words[i..][1..] == words[i + 1..];
      if curLen == 0 {
        cur := word;
        curLen := wLen;
      } else if curLen + 1 + wLen <= width {
        cur := cur + " " + word;
        curLen := curLen + 1 + wLen;
      } else {
        rows := rows + [cur];
        cur := word;
        curLen := wLen;
      }
    }
    if cur != "" {
      rows := rows + [cur];
    }
    assert rows == Fill("", 0, words, width);
    wrapped := Join(rows, "\n");
  }

  // --------------------------------------------------------- greedy, in words

  function RowLength(row: seq<string>): nat {
    if row == [] then 0
    else if |row| == 1 then VisibleLength(row[0])
    else RowLength(row[..|row| - 1]) + 1 + VisibleLength(row[|row| - 1])
  }

  function Greedy(row: seq<string>, words: seq<string>, width: int): seq<seq<string>>
    requires row != []
    decreases |words|
  {
    if words == [] then [row]
    else if RowLength(row) + 1 + VisibleLength(words[0]) <= width then Greedy(row + [words[0]], words[1..], width)
    else [row] + Greedy([words[0]], words[1..], width)
  }

  function Rows(words: seq<string>, width: int): seq<seq<string>> {
    if words == [] then [] else Greedy([words[0]], words[1..], width)
  }

  function Texts(rows: seq<seq<string>>): seq<string> {
    if rows == [] then [] else [Join(rows[0], " ")] + Texts(rows[1..])
  }

  function Flatten(rows: seq<seq<string>>): seq<string> {
    if rows == [] then [] else rows[0] + Flatten(rows[1..])
  }

  /** Every word shows something. */
  predicate Visible(words: seq<string>) {
    forall w :: w in words ==> VisibleLength(w) > 0
  }

  /** A row fits the width or cannot be made shorter. */
  predicate Suits(row: seq<string>, width: int) {
    RowLength(row) <= width || |row| <= 1
  }

  lemma {:induction false} JoinLast(row: seq<string>, w: string)
    requires row != []
    ensures Join(row + [w], " ") == Join(row, " ") + " " + w
  {
    if |row| > 1 {
      JoinLast(row[1..], w);
      assert (row + [w])[1..] == row[1..] + [w];
    }
  }

  lemma {:induction false} JoinedLength(row: seq<string>)
    ensures VisibleLength(Join(row, " ")) == RowLength(row)
  {
    if |row| > 1 {
      var init, w := row[..|row| - 1], row[|row| - 1];
      JoinedLength(init);
      JoinLast(init, w);
      assert row == init + [w];
      VisibleLengthAdds(Join(init, " "), w);
    }
  }

  lemma {:induction false} FillIsGreedy(row: seq<string>, words: seq<string>, width: int)
    requires row != [] && Visible(words) && RowLength(row) > 0
    ensures Fill(Join(row, " "), RowLength(row), words, width) == Texts(Greedy(row, words, width))
    decreases |words|
  {
    JoinedLength(row);
    if words == [] {
      assert Texts([row]) == [Join(row, " ")];
    } else {
      var w, rest := words[0], words[1..];
      assert w in words;
      assert RowLength([w]) == VisibleLength(w) && Join([w], " ") == w;
      if RowLength(row) + 1 + VisibleLength(w) <= width {
        JoinLast(row, w);
        assert (row + [w])[..|row|] == row;
        FillIsGreedy(row + [w], rest, width);
      } else {
        FillIsGreedy([w], rest, width);
        assert ([row] + Greedy([w], rest, width))[1..] == Greedy([w], rest, width);
      }
    }
  }

  lemma {:induction false} GreedyKeepsWords(row: seq<string>, words: seq<string>, width: int)
    requires row != []
    ensures Flatten(Greedy(row, words, width)) == row + words
    decreases |words|
  {
    if words == [] {
      assert Flatten([row]) == row + [];
    } else {
      var w, rest := words[0], words[1..];
      GreedyKeepsWords(row + [w], rest, width);
      GreedyKeepsWords([w], rest, width);
      assert ([row] + Greedy([w], rest, width))[1..] == Greedy([w], rest, width);
      assert row + [w] + rest == row + words && row + ([w] + rest) == row + words;
    }
  }

  lemma {:induction false} GreedySuits(row: seq<string>, words: seq<string>, width: int)
    requires row != [] && Suits(row, width)
    ensures forall r :: r in Greedy(row, words, width) ==> Suits(r, width)
    decreases |words|
  {
    if words != [] {
      var w, rest := words[0], words[1..];
      assert w in words;
      if RowLength(row) + 1 + VisibleLength(w) <= width {
        assert (row + [w])[..|row|] == row;
        GreedySuits(row + [w], rest, width);
      } else {
        GreedySuits([w], rest, width);
      }
    }
  }

  // ------------------------------------------------------------- optimality

  lemma {:induction false} LongerRowsAreLonger(row: seq<string>, j: nat)
    requires j <= |row|
    ensures RowLength(row[..j]) <= RowLength(row)
  {
    if j < |row| {
      var init := row[..|row| - 1];
      LongerRowsAreLonger(init, j);
      assert init[..j] == row[..j];
      if |row| == 1 {
        assert row[..j] == [];
      }
    } else {
      assert row[..j] == row;
    }
  }

  lemma {:induction false} RowFromEarlier(row: seq<string>, d: nat)
    requires d <= |row|
    ensures RowLength(row[d..]) <= RowLength(row)
  {
    if d < |row| && |row| > 1 {
      var init := row[..|row| - 1];
      if d < |init| {
        RowFromEarlier(init, d);
        assert row[d..][..|row[d..]| - 1] == init[d..];
      } else {
        assert row[d..] == [row[|row| - 1]];
      }
    } else {
      assert row[d..] == if d == 0 then row else [];
    }
  }

  lemma OneMoreWord(row: seq<string>, w: string)
    requires row != []
    ensures RowLength(row + [w]) == RowLength(row) + 1 + VisibleLength(w)
  {
    assert (row + [w])[..|row|] == row;
  }

  lemma NoMoreFits(row: seq<string>, words: seq<string>, width: int)
    requires row != [] && words != [] && RowLength(row + [words[0]]) > width
    ensures forall j :: 0 < j <= |words| ==> RowLength(row + words[..j]) > width
  {
    hide RowLength;
    forall j | 0 < j <= |words| ensures RowLength(row + words[..j]) > width {
      LongerRowsAreLonger(row + words[..j], |row| + 1);
      assert (row + words[..j])[..|row| + 1] == row + [words[0]];
    }
  }

  /** The first greedy row takes n more words and no more would fit. */
  lemma {:induction false} FirstRow(row: seq<string>, words: seq<string>, width: int) returns (n: nat)
    requires row != []
    ensures n <= |words|
    ensures Greedy(row, words, width) == [row + words[..n]] + Rows(words[n..], width)
    ensures forall j :: n < j <= |words| ==> RowLength(row + words[..j]) > width
    decreases |words|
  {
    hide RowLength, VisibleLength;
    n := 0;
    assert row + words[..0] == row && words[0..] == words;
    if words != [] {
      var w, rest := words[0], words[1..];
      OneMoreWord(row, w);
      if RowLength(row) + 1 + VisibleLength(w) <= width {
        var m := FirstRow(row + [w], rest, width);
        n := m + 1;
        assert row + [w] + rest[..m] == row + words[..n] && rest[m..] == words[n..];
        forall j | n < j <= |words| ensures RowLength(row + words[..j]) > width {
          assert row + words[..j] == row + [w] + rest[..j - 1];
        }
      } else {
        hide Greedy;
        NoMoreFits(row, words, width);
      }
    }
  }

  /** Greedy rows for any tail of the words never outnumber the rows of any split of all of them. */
  lemma {:induction false} GreedyStaysAhead(all: seq<string>, d: nat, split: seq<seq<string>>, width: int)
    requires d <= |all| && Flatten(split) == all
    requires forall r :: r in split ==> Suits(r, width)
    ensures |Rows(all[d..], width)| <= |split|
    decreases |split|
  {
    hide RowLength, VisibleLength, Greedy;
    var tail := all[d..];
    if tail != [] {
      var first, others := split[0], split[1..];
      var k := |first|;
      assert all[k..] == Flatten(others) && all[..k] == first;
      if d >= k {
        GreedyStaysAhead(all[k..], d - k, others, width);
        assert all[k..][d - k..] == tail;
      } else {
        var n := FirstRow([tail[0]], tail[1..], width);
        assert [tail[0]] + tail[1..][..k - d - 1] == first[d..];
        assert first in split;
        RowFromEarlier(first, d);
        assert 1 + n >= k - d;
        GreedyStaysAhead(all[k..], d + 1 + n - k, others, width);
        assert all[k..][d + 1 + n - k..] == tail[1..][n..];
      }
    }
  }

  /** Greedy wrap is optimal, for all words and widths: it keeps the words in order, every row fits or is
      a single word, and no other in-order split into such rows has fewer rows. */
  lemma GreedyIsOptimal(words: seq<string>, split: seq<seq<string>>, width: int)
    requires Flatten(split) == words && forall r :: r in split ==> Suits(r, width)
    ensures Flatten(Rows(words, width)) == words
    ensures forall r :: r in Rows(words, width) ==> Suits(r, width)
    ensures |Rows(words, width)| <= |split|
  {
    if words != [] {
      GreedyKeepsWords([words[0]], words[1..], width);
      GreedySuits([words[0]], words[1..], width);
    }
    assert words[0..] == words;
    GreedyStaysAhead(words, 0, split, width);
  }

  lemma {:induction false} RowsAreNotEmpty(row: seq<string>, words: seq<string>, width: int)
    requires row != []
    ensures forall r :: r in Greedy(row, words, width) ==> r != []
    decreases |words|
  {
    if words != [] {
      RowsAreNotEmpty(row + [words[0]], words[1..], width);
      RowsAreNotEmpty([words[0]], words[1..], width);
    }
  }

  lemma {:induction false} JoinConcat(a: seq<string>, b: seq<string>)
    requires a != [] && b != []
    ensures Join(a + b, " ") == Join(a, " ") + " " + Join(b, " ")
  {
    if |a| == 1 {
      assert (a + b)[1..] == b;
    } else {
      assert (a + b)[1..] == a[1..] + b;
      JoinConcat(a[1..], b);
    }
  }

  lemma {:induction false} JoinOfTexts(rows: seq<seq<string>>)
    requires forall r :: r in rows ==> r != []
    ensures Join(Texts(rows), " ") == Join(Flatten(rows), " ")
    ensures rows != [] ==> Flatten(rows) != []
  {
    if rows != [] {
      var rest := rows[1..];
      assert rows[0] in rows && forall r :: r in rest ==> r in rows;
      JoinOfTexts(rest);
      if rest == [] {
        assert Flatten(rows) == rows[0] + [] == rows[0];
      } else {
        JoinConcat(rows[0], Flatten(rest));
        assert Texts(rows)[1..] == Texts(rest);
      }
    }
  }

  /** One row is enough exactly when the line fits as it is. */
  lemma {:induction false} OneRow(row: seq<string>, words: seq<string>, width: int)
    requires row != [] && RowLength(row + words) <= width
    ensures Greedy(row, words, width) == [row + words]
    decreases |words|
  {
    if words == [] {
      assert row + words == row;
    } else {
      LongerRowsAreLonger(row + words, |row| + 1);
      assert (row + words)[..|row| + 1] == row + [words[0]] && (row + [words[0]])[..|row|] == row;
      assert row + [words[0]] + words[1..] == row + words;
      OneRow(row + [words[0]], words[1..], width);
    }
  }

  lemma {:induction false} InFlatten(rows: seq<seq<string>>, r: seq<string>)
    requires r in rows
    ensures forall w :: w in r ==> w in Flatten(rows)
  {
    if r != rows[0] {
      InFlatten(rows[1..], r);
    }
  }

  /** For a line of visible words, at every width, the rows printed are the greedy rows; joined by spaces
      they give the line back; each fits or is a single word, and fits if every word does. */
  lemma WrapIsGreedy(line: string, width: int)
    requires Visible(Words(line))
    ensures
      var rows := Rows(Words(line), width);
      && PrintedRows(line, width) == Texts(rows)
      && Join(PrintedRows(line, width), " ") == line
      && (forall r :: r in rows ==> VisibleLength(Join(r, " ")) <= width || |r| == 1)
      && ((forall w :: w in Words(line) ==> VisibleLength(w) <= width) ==>
           forall r :: r in rows ==> VisibleLength(Join(r, " ")) <= width)
  {
    var words := Words(line);
    var w := words[0];
    assert w in words;
    var rows := Rows(words, width);
    WordsJoin(line);
    assert Fill("", 0, words, width) == Fill(w, VisibleLength(w), words[1..], width);
    assert Join([w], " ") == w && RowLength([w]) == VisibleLength(w);
    FillIsGreedy([w], words[1..], width);
    GreedyKeepsWords([w], words[1..], width);
    GreedySuits([w], words[1..], width);
    RowsAreNotEmpty([w], words[1..], width);
    assert [w] + words[1..] == words;
    JoinOfTexts(rows);
    JoinedLength(words);
    if VisibleLength(line) <= width {
      OneRow([w], words[1..], width);
      assert Texts(rows) == [line];
    }
    forall r | r in rows
      ensures VisibleLength(Join(r, " ")) == RowLength(r)
      ensures |r| == 1 ==> RowLength(r) == VisibleLength(r[0]) && r[0] in words
    {
      JoinedLength(r);
      InFlatten(rows, r);
    }
  }

  // ------------------------------------------------------- what is given back

  lemma JoinOneMore(w: string, rest: seq<string>)
    requires rest != []
    ensures Join([w] + rest, " ") == w + " " + Join(rest, " ")
  {
    assert ([w] + rest)[1..] == rest;
  }

  lemma JoinMerged(a: string, b: string, rest: seq<string>)
    ensures Join([a + " " + b] + rest, " ") == Join([a] + ([b] + rest), " ")
  {
    assert ([a] + ([b] + rest))[1..] == [b] + rest;
    assert ([b] + rest)[1..] == rest && ([a + " " + b] + rest)[1..] == rest;
  }

  /** The length of a joined list and one separator more. */
  function Weight(words: seq<string>): nat {
    if words == [] then 0 else |words[0]| + 1 + Weight(words[1..])
  }

  lemma {:induction false} JoinWeight(words: seq<string>)
    ensures |Join(words, " ")| == if words == [] then 0 else Weight(words) - 1
  {
    if |words| > 1 {
      JoinWeight(words[1..]);
    } else if words != [] {
      assert words[1..] == [];
    }
  }

  /** The loop, with cur of visible length n being filled, drops something on its way: a row that so far
      shows nothing when another word comes, or an empty row at the end. */
  predicate Loses(cur: string, n: nat, words: seq<string>, width: int)
    decreases |words|
  {
    if words == [] then cur == ""
    else if n == 0 then true
    else
      var m := VisibleLength(words[0]);
      if n + 1 + m <= width then Loses(cur + " " + words[0], n + 1 + m, words[1..], width)
      else Loses(words[0], m, words[1..], width)
  }

  /** What is dropped is missing from the rows; without a drop they are the words. */
  lemma {:induction false} FillKeepsOrLoses(cur: string, n: nat, words: seq<string>, width: int)
    ensures var rows := Fill(cur, n, words, width);
      if Loses(cur, n, words, width) then Weight(rows) < Weight([cur] + words)
      else rows != [] && Join(rows, " ") == Join([cur] + words, " ")
    ensures Weight(Fill(cur, n, words, width)) <= Weight([cur] + words)
    decreases |words|
  {
    hide VisibleLength, Join;
    var all := [cur] + words;
    assert all[1..] == words;
    if words == [] {
      assert all == [cur];
    } else {
      var w, rest := words[0], words[1..];
      var m := VisibleLength(w);
      assert words == [w] + rest;
      if n == 0 {
        FillKeepsOrLoses(w, m, rest, width);
      } else if n + 1 + m <= width {
        FillKeepsOrLoses(cur + " " + w, n + 1 + m, rest, width);
        JoinMerged(cur, w, rest);
        assert ([cur + " " + w] + rest)[1..] == rest;
      } else {
        FillKeepsOrLoses(w, m, rest, width);
        var later := Fill(w, m, rest, width);
        assert ([cur] + later)[1..] == later;
        if later != [] {
          JoinOneMore(cur, later);
        }
        JoinOneMore(cur, words);
      }
    }
  }

  predicate GivenBack(line: string, width: int) {
    Join(PrintedRows(line, width), " ") == line
  }

  /** For every line and width: the rows joined by spaces give the line back exactly if it fits, is empty,
      or the loop never replaces a row that shows nothing and does not end on an empty one. */
  lemma GivenBackIffNothingLost(line: string, width: int)
    ensures var words := Words(line);
      GivenBack(line, width) <==>
        || VisibleLength(line) <= width || line == ""
        || !Loses(words[0], VisibleLength(words[0]), words[1..], width)
  {
    var words := Words(line);
    var w, rest := words[0], words[1..];
    assert words == [w] + rest;
    WordsJoin(line);
    FillKeepsOrLoses(w, VisibleLength(w), rest, width);
    var rows := Fill("", 0, words, width);
    assert rows == Fill(w, VisibleLength(w), rest, width);
    JoinWeight(words);
    JoinWeight(rows);
    if line == "" {
      assert rows == [];
    }
  }

  /** An indented line that does not fit is never given back, at any width: it is wrapped as if the space
      before it were not there. */
  lemma IndentIsLost(line: string, width: int)
    requires line != "" && line[0] == ' ' && VisibleLength(line) > width
    ensures !GivenBack(line, width)
    ensures PrintedRows(line, width) == Fill("", 0, Words(line[1..]), width)
  {
    GivenBackIffNothingLost(line, width);
    assert Words(line) == [""] + Words(line[1..]);
    assert Words(line)[1..] == Words(line[1..]);
  }

  lemma {:induction false} PlainLength(n: nat)
    ensures VisibleLength(seq(n, _ => 'a')) == n
  {
    if n > 0 {
      var s := seq(n, _ => 'a');
      assert s[1..] == seq(n - 1, _ => 'a');
      PlainLength(n - 1);
    }
  }

  /** Such lines exist for every width, 30 and up included. */
  lemma SomeIndentIsLost(width: nat)
    ensures !GivenBack(" " + seq(width, _ => 'a'), width)
  {
    var word := seq(width, _ => 'a');
    PlainLength(width);
    VisibleLengthAdds("", word);
    assert "" + " " + word == " " + word;
    IndentIsLost(" " + word, width);
  }
}

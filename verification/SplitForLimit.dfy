/** Splitting outbound text for a channel's length limit (src/channels/chat-sdk-bridge.ts).
    A char stands for one UTF-16 code unit that is no surrogate. */
module SplitForLimit {

  import opened JsText

  predicate At(s: string, pattern: string, i: int) {
    0 <= i && i + |pattern| <= |s| && s[i..i + |pattern|] == pattern
  }

  /** The last place at or before from where the pattern starts, or -1. */
  function LastIndexOf(s: string, pattern: string, from: int): (r: int)
    ensures -1 <= r && (r >= 0 ==> r <= from && At(s, pattern, r))
    ensures forall i :: r < i <= from ==> !At(s, pattern, i)
    decreases from + 1
  {
    if from < 0 then -1
    else if At(s, pattern, from) then from
    else LastIndexOf(s, pattern, from - 1)
  }

  /** Where to cut text that is too long: a paragraph break, a line break, a space, or the limit. */
  function CutAt(s: string, limit: int): int {
    var paragraph := LastIndexOf(s, "\n\n", limit);
    if paragraph > 0 then paragraph else
    var line := LastIndexOf(s, "\n", limit);
    if line > 0 then line else
    var word := LastIndexOf(s, " ", limit);
    if word > 0 then word else limit
  }

  lemma CutIsInside(s: string, limit: int)
    requires 1 <= limit < |s|
    ensures 1 <= CutAt(s, limit) <= limit
  {
  }

  /** A chunk of the text between two positions. */
  datatype Piece = Piece(from: nat, to: nat)

  /** The chunks of text[at..], by position. */
  function Pieces(text: string, at: nat, limit: int): seq<Piece>
    requires limit >= 1 && at <= |text|
    decreases |text| - at
  {
    var remaining := text[at..];
    if |remaining| <= limit then
      if remaining == [] then [] else [Piece(at, |text|)]
    else
      CutIsInside(remaining, limit);
      var cut := CutAt(remaining, limit);
      [Piece(at, at + Trimmed(remaining[..cut]))] + Pieces(text, at + cut + Leading(remaining[cut..]), limit)
  }

  predicate Fits(text: string, ps: seq<Piece>) {
    forall p :: p in ps ==> p.from <= p.to <= |text|
  }

  function Chunks(text: string, ps: seq<Piece>): (cs: seq<string>)
    requires Fits(text, ps)
    ensures |cs| == |ps|
  {
    seq(|ps|, i requires 0 <= i < |ps| => assert ps[i] in ps; text[ps[i].from..ps[i].to])
  }

  lemma {:induction false} PiecesFit(text: string, at: nat, limit: int)
    requires limit >= 1 && at <= |text|
    ensures Fits(text, Pieces(text, at, limit))
    decreases |text| - at
  {
    hide CutAt, At, LastIndexOf, IsSpace, AllSpace, Leading, Trimmed;
    var remaining := text[at..];
    if |remaining| > limit {
      CutIsInside(remaining, limit);
      var cut := CutAt(remaining, limit);
      PiecesFit(text, at + cut + Leading(remaining[cut..]), limit);
    }
  }

  /** The whole split, by position: text that fits is one chunk, an empty one included. */
  function SplitPieces(text: string, limit: int): (ps: seq<Piece>)
    requires limit >= 1
    ensures Fits(text, ps)
  {
    PiecesFit(text, 0, limit);
    if |text| <= limit then [Piece(0, |text|)] else Pieces(text, 0, limit)
  }

  lemma Regroup(done: seq<Piece>, p: Piece, rest: seq<Piece>)
    ensures done + ([p] + rest) == done + [p] + rest
  {
  }

  lemma PiecesStep(text: string, at: nat, limit: int)
    requires 1 <= limit < |text| - at
    ensures 1 <= CutAt(text[at..], limit) <= limit
    ensures var cut := CutAt(text[at..], limit);
      var next := at + cut + Leading(text[at..][cut..]);
      && next <= |text|
      && Pieces(text, at, limit) == [Piece(at, at + Trimmed(text[at..][..cut]))] + Pieces(text, next, limit)
  {
    CutIsInside(text[at..], limit);
  }

  lemma PiecesEnd(text: string, at: nat, limit: int)
    requires limit >= 1 && at <= |text| <= at + limit
    ensures Pieces(text, at, limit) == if at == |text| then [] else [Piece(at, |text|)]
  {
  }

  method FindCut(remaining: string, limit: int) returns (cut: int)
    ensures cut == CutAt(remaining, limit)
  {
    cut := LastIndexOf(remaining, "\n\n", limit);
    if cut <= 0 {
      cut := LastIndexOf(remaining, "\n", limit);
    }
    if cut <= 0 {
      cut := LastIndexOf(remaining, " ", limit);
    }
    if cut <= 0 {
      cut := limit;
    }
  }

  predicate ParagraphAt(s: string, i: int) {
    0 <= i && i + 1 < |s| && s[i] == '\n' && s[i + 1] == '\n'
  }

  predicate CharAt(s: string, c: char, i: int) {
    0 <= i < |s| && s[i] == c
  }

  lemma AtIs(s: string, i: int)
    ensures At(s, "\n\n", i) <==> ParagraphAt(s, i)
    ensures At(s, "\n", i) <==> CharAt(s, '\n', i)
    ensures At(s, " ", i) <==> CharAt(s, ' ', i)
  {
    if 0 <= i < |s| {
      assert s[i..i + 1] == [s[i]];
      if i + 1 < |s| {
        assert s[i..i + 2] == [s[i], s[i + 1]];
      }
    }
  }

  /** The cut is at the last paragraph break from 1 to the limit; without one, at the last newline there;
      without one, at the last space there; and at the limit if there is none of them. */
  lemma CutIsLastBreak(s: string, limit: int)
    ensures
      var cut := CutAt(s, limit);
      if exists i :: 1 <= i <= limit && ParagraphAt(s, i) then
        1 <= cut <= limit && ParagraphAt(s, cut) && forall i :: cut < i <= limit ==> !ParagraphAt(s, i)
      else if exists i :: 1 <= i <= limit && CharAt(s, '\n', i) then
        1 <= cut <= limit && CharAt(s, '\n', cut) && forall i :: cut < i <= limit ==> !CharAt(s, '\n', i)
      else if exists i :: 1 <= i <= limit && CharAt(s, ' ', i) then
        1 <= cut <= limit && CharAt(s, ' ', cut) && forall i :: cut < i <= limit ==> !CharAt(s, ' ', i)
      else cut == limit
  {
    hide At, LastIndexOf, ParagraphAt, CharAt;
    forall i: int
      ensures At(s, "\n\n", i) <==> ParagraphAt(s, i)
      ensures At(s, "\n", i) <==> CharAt(s, '\n', i)
      ensures At(s, " ", i) <==> CharAt(s, ' ', i)
    {
      AtIs(s, i);
    }
  }

  lemma NoChunks(text: string)
    ensures Fits(text, []) && Chunks(text, []) == []
  {
  }

  lemma OneMoreChunk(text: string, ps: seq<Piece>, p: Piece)
    requires Fits(text, ps) && p.from <= p.to <= |text|
    ensures Fits(text, ps + [p]) && Chunks(text, ps + [p]) == Chunks(text, ps) + [text[p.from..p.to]]
  {
  }

  lemma SliceOfSlices(text: string, at: nat, cut: nat, n: nat)
    requires at + cut <= |text| && n <= cut
    ensures text[at..][..cut][..n] == text[at..at + n]
  {
  }

  lemma SuffixOfSuffixes(text: string, at: nat, cut: nat, n: nat)
    requires at + cut + n <= |text|
    ensures text[at..][cut..][n..] == text[at + cut + n..]
  {
  }

  /** What a turn of the loop adds, in positions of the text. */
  lemma SplitTurn(text: string, at: nat, limit: int, done: seq<Piece>) returns (p: Piece, next: nat)
    requires 1 <= limit < |text| - at && Fits(text, done)
    ensures var cut := CutAt(text[at..], limit);
      && 1 <= cut <= limit && at + cut <= next <= |text|
      && Fits(text, done + [p])
      && Chunks(text, done + [p]) == Chunks(text, done) + [text[at..][..cut][..Trimmed(text[at..][..cut])]]
      && text[at..][cut..][Leading(text[at..][cut..])..] == text[next..]
      && done + Pieces(text, at, limit) == done + [p] + Pieces(text, next, limit)
  {
    hide Chunks, Fits, Pieces, CutAt, Trimmed, Leading;
    PiecesStep(text, at, limit);
    var cut := CutAt(text[at..], limit);
    var head, rest := text[at..][..cut], text[at..][cut..];
    p, next := Piece(at, at + Trimmed(head)), at + cut + Leading(rest);
    SliceOfSlices(text, at, cut, Trimmed(head));
    SuffixOfSuffixes(text, at, cut, Leading(rest));
    OneMoreChunk(text, done, p);
    Regroup(done, p, Pieces(text, next, limit));
  }

  lemma SplitEnd(text: string, at: nat, limit: int, done: seq<Piece>)
    requires limit >= 1 && at <= |text| <= at + limit && Fits(text, done)
    ensures Fits(text, done + Pieces(text, at, limit))
    ensures Chunks(text, done + Pieces(text, at, limit)) ==
      Chunks(text, done) + if at == |text| then [] else [text[at..]]
  {
    hide Chunks, Fits, Pieces;
    PiecesEnd(text, at, limit);
    assert done + [] == done && Chunks(text, done) + [] == Chunks(text, done);
    assert text[at..|text|] == text[at..];
    OneMoreChunk(text, done, Piece(at, |text|));
  }

  method Split(text: string, limit: int) returns (chunks: seq<string>)
    requires limit >= 1
    ensures chunks == Chunks(text, SplitPieces(text, limit))
  {
    NoChunks(text);
    if |text| <= limit {
      OneMoreChunk(text, [], Piece(0, |text|));
      assert [] + [Piece(0, |text|)] == SplitPieces(text, limit);
      assert text[0..|text|] == text;
      return [text];
    }
    chunks := [];
    var remaining := text;
    ghost var at: nat := 0;
    ghost var done: seq<Piece> := [];
    assert text[0..] == text && [] + Pieces(text, 0, limit) == SplitPieces(text, limit);
    hide SplitPieces, Chunks, Fits, Pieces, CutAt, Trimmed, Leading;
    while |remaining| > limit
      invariant at <= |text| && remaining == text[at..]
      invariant Fits(text, done) && chunks == Chunks(text, done)
      invariant SplitPieces(text, limit) == done + Pieces(text, at, limit)
      decreases |remaining|
    {
      var cut := FindCut(remaining, limit);
      ghost var p, next := SplitTurn(text, at, limit, done);
      var head, rest := remaining[..cut], remaining[cut..];
      chunks := chunks + [head[..Trimmed(head)]];
      remaining := rest[Leading(rest)..];
      done, at := done + [p], next;
    }
    SplitEnd(text, at, limit, done);
    if |remaining| > 0 {
      chunks := chunks + [remaining];
    }
  }

  // ----------------------------------------------------------- what is split

  predicate SpaceBetween(text: string, i: int, j: int)
    requires 0 <= i <= j <= |text|
  {
    forall k :: i <= k < j ==> IsSpace(text[k])
  }

  predicate WordBetween(text: string, i: int, j: int)
    requires 0 <= i <= j <= |text|
  {
    forall k :: i <= k < j ==> !IsSpace(text[k])
  }

  /** The only whitespace the cutter looks for. */
  predicate PlainSpaces(text: string) {
    forall k :: 0 <= k < |text| && IsSpace(text[k]) ==> text[k] == ' ' || text[k] == '\n'
  }

  /** A cut falls on whitespace or at the limit. */
  lemma CutOnSpaceOrLimit(s: string, limit: int)
    requires 1 <= limit < |s|
    ensures 1 <= CutAt(s, limit) <= limit && (IsSpace(s[CutAt(s, limit)]) || CutAt(s, limit) == limit)
  {
    hide LastIndexOf;
    var p, l, w := LastIndexOf(s, "\n\n", limit), LastIndexOf(s, "\n", limit), LastIndexOf(s, " ", limit);
    assert p > 0 ==> s[p] == s[p..p + 2][0] == '\n';
    assert l > 0 ==> s[l] == s[l..l + 1][0] == '\n';
    assert w > 0 ==> s[w] == s[w..w + 1][0] == ' ';
  }

  /** With plain whitespace it falls at the limit only when there is none up to it after the first
      character. */
  lemma CutFallsOnSpace(s: string, limit: int)
    requires 1 <= limit < |s| && PlainSpaces(s)
    ensures 1 <= CutAt(s, limit) <= limit
    ensures IsSpace(s[CutAt(s, limit)]) || (CutAt(s, limit) == limit && WordBetween(s, 1, limit + 1))
  {
    forall k | 0 <= k < |s| ensures At(s, " ", k) <==> s[k] == ' ' {
      assert s[k..k + 1] == [s[k]];
    }
    forall k | 0 <= k < |s| ensures At(s, "\n", k) <==> s[k] == '\n' {
      assert s[k..k + 1] == [s[k]];
    }
    var p := LastIndexOf(s, "\n\n", limit);
    if p > 0 {
      assert s[p] == s[p..p + 2][0];
    }
  }

  /** What trimming around a cut takes away is whitespace, and it stops at a word. */
  lemma GapIsSpace(text: string, at: nat, n: nat)
    requires 1 <= n < |text| - at
    ensures var head, rest := text[at..][..n], text[at..][n..];
      var end, next := at + Trimmed(head), at + n + Leading(rest);
      && SpaceBetween(text, end, next)
      && (next < |text| ==> !IsSpace(text[next]))
      && (at < end ==> !IsSpace(text[end - 1]))
      && (!IsSpace(text[at]) ==> at < end)
  {
    hide IsSpace;
    var head, rest := text[at..][..n], text[at..][n..];
    var cut, end, next := at + n, at + Trimmed(head), at + n + Leading(rest);
    forall k | end <= k < next ensures IsSpace(text[k]) {
      if k < cut {
        assert text[k] == head[Trimmed(head)..][k - end];
      } else {
        assert text[k] == rest[..Leading(rest)][k - cut];
      }
    }
    assert next < |text| ==> text[next] == rest[Leading(rest)];
    assert at < end ==> text[end - 1] == head[Trimmed(head) - 1];
    if !IsSpace(text[at]) {
      NotTrimmedAway(head);
    }
  }

  lemma CutOfSuffix(text: string, at: nat, limit: int)
    requires 1 <= limit < |text| - at && PlainSpaces(text)
    ensures var n := CutAt(text[at..], limit);
      && 1 <= n <= limit
      && (IsSpace(text[at + n]) || (n == limit && WordBetween(text, at + 1, at + limit + 1)))
  {
    hide CutAt, IsSpace;
    var s := text[at..];
    assert forall k :: 0 <= k < |s| ==> s[k] == text[at + k];
    CutFallsOnSpace(s, limit);
    if WordBetween(s, 1, limit + 1) {
      forall k | at + 1 <= k <= at + limit ensures !IsSpace(text[k]) {
        assert text[k] == s[k - at];
      }
    }
  }

  /** One turn of the loop, in positions of the text: it cuts at cut, the chunk ends at end, and
      the next turn starts at next. */
  lemma Turn(text: string, at: nat, limit: int) returns (cut: nat, end: nat, next: nat)
    requires limit >= 1 && at <= |text| && |text| - at > limit
    ensures at < cut <= at + limit && at <= end <= cut <= next <= |text|
    ensures Pieces(text, at, limit) == [Piece(at, end)] + Pieces(text, next, limit)
    ensures SpaceBetween(text, end, next)
    ensures next < |text| ==> !IsSpace(text[next])
    ensures at < end ==> !IsSpace(text[end - 1])
    ensures !IsSpace(text[at]) ==> at < end
    ensures IsSpace(text[cut]) || cut == at + limit
    ensures PlainSpaces(text) ==> IsSpace(text[cut]) || WordBetween(text, at + 1, at + limit + 1)
  {
    hide CutAt, Pieces, IsSpace, Trimmed, Leading, SpaceBetween, WordBetween, PlainSpaces;
    PiecesStep(text, at, limit);
    var n := CutAt(text[at..], limit);
    GapIsSpace(text, at, n);
    cut, end, next := at + n, at + Trimmed(text[at..][..n]), at + n + Leading(text[at..][n..]);
    CutOnSpaceOrLimit(text[at..], limit);
    assert text[at..][n] == text[cut];
    if PlainSpaces(text) {
      CutOfSuffix(text, at, limit);
    }
  }

  /** The pieces are in order inside the text, and nothing but whitespace lies outside them. */
  ghost predicate Covers(text: string, at: nat, ps: seq<Piece>)
    decreases |ps|
  {
    at <= |text| &&
    if ps == [] then SpaceBetween(text, at, |text|)
    else
      && at <= ps[0].from <= ps[0].to <= |text|
      && SpaceBetween(text, at, ps[0].from)
      && Covers(text, ps[0].to, ps[1..])
  }

  lemma CoversFromEarlier(text: string, at: nat, later: nat, ps: seq<Piece>)
    requires at <= later <= |text| && SpaceBetween(text, at, later) && Covers(text, later, ps)
    ensures Covers(text, at, ps)
  {
  }

  lemma {:induction false} PiecesCover(text: string, at: nat, limit: int)
    requires limit >= 1 && at <= |text|
    ensures Covers(text, at, Pieces(text, at, limit))
    decreases |text| - at
  {
    if |text| - at > limit {
      var cut, end, next := Turn(text, at, limit);
      PiecesCover(text, next, limit);
      hide Pieces;
      CoversFromEarlier(text, end, next, Pieces(text, next, limit));
      assert Pieces(text, at, limit)[1..] == Pieces(text, next, limit);
    }
  }

  /** Within the limit, and not empty where it starts on a word. */
  lemma {:induction false} PiecesAreBounded(text: string, at: nat, limit: int)
    requires limit >= 1 && at <= |text|
    ensures forall p :: p in Pieces(text, at, limit) ==> p.to - p.from <= limit
    ensures at == |text| || !IsSpace(text[at]) ==> forall p :: p in Pieces(text, at, limit) ==> p.from < p.to
    ensures var ps := Pieces(text, at, limit); forall i :: 1 <= i < |ps| ==> ps[i].from < ps[i].to
    decreases |text| - at
  {
    hide IsSpace, Pieces, SpaceBetween, WordBetween, PlainSpaces;
    if |text| - at <= limit {
      PiecesEnd(text, at, limit);
    } else {
      var cut, end, next := Turn(text, at, limit);
      PiecesAreBounded(text, next, limit);
      var ps, rest := Pieces(text, at, limit), Pieces(text, next, limit);
      forall i | 1 <= i < |ps| ensures ps[i].from < ps[i].to {
        assert ps[i] == rest[i - 1] && rest[i - 1] in rest;
      }
    }
  }

  /** Each piece but the last ends on a character of a word, each piece but the first starts on one. */
  lemma {:induction false} PiecesAreTrimmed(text: string, at: nat, limit: int)
    requires limit >= 1 && at <= |text|
    ensures Fits(text, Pieces(text, at, limit))
    ensures var ps := Pieces(text, at, limit);
      && (forall i :: 0 <= i < |ps| - 1 && ps[i].from < ps[i].to ==> !IsSpace(text[ps[i].to - 1]))
      && (forall i :: 1 <= i < |ps| && ps[i].from < |text| ==> !IsSpace(text[ps[i].from]))
      && (ps != [] ==> ps[0].from == at)
    decreases |text| - at
  {
    hide IsSpace, Pieces, SpaceBetween, WordBetween, PlainSpaces;
    if |text| - at <= limit {
      PiecesEnd(text, at, limit);
    } else {
      var cut, end, next := Turn(text, at, limit);
      PiecesAreTrimmed(text, next, limit);
      var ps, rest := Pieces(text, at, limit), Pieces(text, next, limit);
      assert forall i :: 1 <= i < |ps| ==> ps[i] == rest[i - 1];
    }
  }

  lemma ChunkIs(text: string, ps: seq<Piece>, i: nat)
    requires Fits(text, ps) && i < |ps|
    ensures ps[i].from <= ps[i].to <= |text| && Chunks(text, ps)[i] == text[ps[i].from..ps[i].to]
  {
    assert ps[i] in ps;
  }

  lemma WholeIsCovered(text: string)
    ensures Covers(text, 0, [Piece(0, |text|)])
  {
    assert [Piece(0, |text|)][1..] == [];
  }

  /** Every chunk is within the limit, every chunk after the first is non-empty, and the chunks
      leave out nothing but whitespace. */
  lemma SplitIsFaithful(text: string, limit: int)
    requires limit >= 1
    ensures var ps := SplitPieces(text, limit);
      && Covers(text, 0, ps)
      && (forall i :: 0 <= i < |ps| ==> |Chunks(text, ps)[i]| <= limit)
      && (forall i :: 1 <= i < |ps| ==> Chunks(text, ps)[i] != "")
  {
    hide IsSpace, Pieces, Chunks;
    var ps := SplitPieces(text, limit);
    WholeIsCovered(text);
    PiecesCover(text, 0, limit);
    PiecesAreBounded(text, 0, limit);
    hide Covers, SplitPieces;
    forall i | 0 <= i < |ps|
      ensures |Chunks(text, ps)[i]| == ps[i].to - ps[i].from && ps[i] in ps
    {
      ChunkIs(text, ps, i);
    }
  }

  /** Around each cut all whitespace is left out: a chunk with another one after it does not end on
      whitespace, and one with another before it does not start on it. */
  lemma ChunksAreTrimmed(text: string, limit: int, i: nat)
    requires limit >= 1 && i < |SplitPieces(text, limit)|
    ensures var chunk := Chunks(text, SplitPieces(text, limit))[i];
      && (i > 0 && chunk != "" ==> !IsSpace(chunk[0]))
      && (i < |SplitPieces(text, limit)| - 1 && chunk != "" ==> !IsSpace(chunk[|chunk| - 1]))
  {
    hide IsSpace, Pieces, Chunks, Fits;
    var ps := SplitPieces(text, limit);
    ChunkIs(text, ps, i);
    if |text| > limit {
      PiecesAreTrimmed(text, 0, limit);
      hide SplitPieces;
      var chunk := Chunks(text, ps)[i];
      if chunk != "" {
        assert chunk[0] == text[ps[i].from] && chunk[|chunk| - 1] == text[ps[i].to - 1];
      }
    }
  }

  // ------------------------------------------------------------- whole words

  /** A run without whitespace from i to j that cannot be extended. */
  ghost predicate IsWord(text: string, i: int, j: int) {
    && 0 <= i < j <= |text| && WordBetween(text, i, j)
    && (i > 0 ==> IsSpace(text[i - 1])) && (j < |text| ==> IsSpace(text[j]))
  }

  ghost predicate Holds(p: Piece, i: int, j: int) {
    p.from <= i && j <= p.to
  }

  lemma WordEndsBeforeCut(text: string, at: nat, limit: int, cut: int, i: int, j: int)
    requires IsWord(text, i, j) && j - i <= limit && at <= i < cut && at < cut <= at + limit < |text|
    requires IsSpace(text[cut]) || WordBetween(text, at + 1, at + limit + 1)
    requires !IsSpace(text[at])
    ensures j <= cut
  {
    hide IsSpace;
  }

  lemma {:induction false} WordsAreKept(text: string, at: nat, limit: int, i: int, j: int)
    requires limit >= 1 && at <= i && IsWord(text, i, j) && j - i <= limit
    requires PlainSpaces(text) && !IsSpace(text[at])
    ensures exists p :: p in Pieces(text, at, limit) && Holds(p, i, j)
    decreases |text| - at
  {
    hide IsSpace, PlainSpaces;
    var ps := Pieces(text, at, limit);
    if |text| - at <= limit {
      assert ps[0] in ps && Holds(ps[0], i, j);
    } else {
      var cut, end, next := Turn(text, at, limit);
      hide Pieces;
      if i < cut {
        WordEndsBeforeCut(text, at, limit, cut, i, j);
        assert j <= end by {
          assert !IsSpace(text[j - 1]);
        }
        assert ps[0] in ps && Holds(ps[0], i, j);
      } else {
        assert !IsSpace(text[i]);
        assert next <= i;
        WordsAreKept(text, next, limit, i, j);
        var p :| p in Pieces(text, next, limit) && Holds(p, i, j);
        assert p in ps;
      }
    }
  }

  /** No word within the limit is split. */
  ghost predicate KeepsShortWords(text: string, limit: int)
    requires limit >= 1
  {
    forall i, j :: IsWord(text, i, j) && j - i <= limit ==> exists p :: p in SplitPieces(text, limit) && Holds(p, i, j)
  }

  /** One whitespace character, then a word of exactly the limit: the only cut in reach is inside it. */
  ghost predicate IndentsFullWord(text: string, limit: int) {
    limit >= 2 && |text| > limit && IsSpace(text[0]) && IsWord(text, 1, limit + 1)
  }

  lemma WordStaysWhole(text: string, limit: int, i: int, j: int)
    requires limit >= 1 && PlainSpaces(text) && !IndentsFullWord(text, limit)
    requires IsWord(text, i, j) && j - i <= limit
    ensures exists p :: p in SplitPieces(text, limit) && Holds(p, i, j)
  {
    hide IsSpace, PlainSpaces, Pieces;
    var ps := SplitPieces(text, limit);
    if |text| <= limit {
      assert ps[0] in ps && Holds(ps[0], i, j);
    } else if !IsSpace(text[0]) {
      WordsAreKept(text, 0, limit, i, j);
    } else {
      assert 1 <= i && !IsSpace(text[i]) && !IsSpace(text[j - 1]);
      var cut, end, next := Turn(text, 0, limit);
      assert i < cut ==> j <= cut;
      if i < cut {
        assert j <= end;
        assert ps[0] in ps && Holds(ps[0], i, j);
      } else {
        assert next <= i;
        WordsAreKept(text, next, limit, i, j);
        var p :| p in Pieces(text, next, limit) && Holds(p, i, j);
        assert p in ps;
      }
    }
  }

  lemma {:induction false} PiecesStartAt(text: string, at: nat, limit: int)
    requires limit >= 1 && at <= |text|
    ensures forall p :: p in Pieces(text, at, limit) ==> p.from >= at
    decreases |text| - at
  {
    hide Pieces, IsSpace, SpaceBetween, WordBetween, PlainSpaces;
    if |text| - at <= limit {
      PiecesEnd(text, at, limit);
    } else {
      var cut, end, next := Turn(text, at, limit);
      PiecesStartAt(text, next, limit);
    }
  }

  lemma FullWordIsSplit(text: string, limit: int)
    requires limit >= 1 && PlainSpaces(text) && IndentsFullWord(text, limit)
    ensures !KeepsShortWords(text, limit)
  {
    hide IsSpace, PlainSpaces, Pieces;
    var ps := SplitPieces(text, limit);
    var cut, end, next := Turn(text, 0, limit);
    assert cut == limit;
    PiecesStartAt(text, next, limit);
    assert IsWord(text, 1, limit + 1);
    assert forall p :: p in ps ==> !Holds(p, 1, limit + 1);
  }

  /** Where spaces and newlines are the only whitespace, no word that fits is split, exactly unless the text
      starts with one of them followed by a word of exactly the limit. */
  lemma ShortWordsStayWhole(text: string, limit: int)
    requires limit >= 1 && PlainSpaces(text)
    ensures KeepsShortWords(text, limit) <==> !IndentsFullWord(text, limit)
  {
    hide IsSpace, PlainSpaces, SplitPieces;
    if IndentsFullWord(text, limit) {
      FullWordIsSplit(text, limit);
    } else {
      forall i, j | IsWord(text, i, j) && j - i <= limit
        ensures exists p :: p in SplitPieces(text, limit) && Holds(p, i, j)
      {
        WordStaysWhole(text, limit, i, j);
      }
    }
  }

  /** With a limit of 1 or 2 a turn that starts on a word cannot split a short one. */
  lemma {:induction false} TinyLimitKeeps(text: string, at: nat, limit: int, i: int, j: int)
    requires 1 <= limit <= 2 && at <= i && IsWord(text, i, j) && j - i <= limit && !IsSpace(text[at])
    ensures exists p :: p in Pieces(text, at, limit) && Holds(p, i, j)
    decreases |text| - at
  {
    hide IsSpace, PlainSpaces, Pieces;
    var ps := Pieces(text, at, limit);
    if |text| - at <= limit {
      PiecesEnd(text, at, limit);
      assert Holds(ps[0], i, j);
    } else {
      var cut, end, next := Turn(text, at, limit);
      assert !IsSpace(text[i]) && !IsSpace(text[j - 1]);
      if i < cut {
        assert i > at ==> IsSpace(text[i - 1]);
        assert j <= cut;
        assert Holds(ps[0], i, j);
      } else {
        TinyLimitKeeps(text, next, limit, i, j);
        var p :| p in Pieces(text, next, limit) && Holds(p, i, j);
        assert p in ps;
      }
    }
  }

  /** If c is the only whitespace of a text and does not start it, its short words stay whole. */
  ghost predicate SeparatesWords(c: char, text: string, limit: int)
    requires limit >= 1
  {
    (forall k :: 0 <= k < |text| && IsSpace(text[k]) ==> text[k] == c) && (text != "" ==> text[0] != c)
    ==> KeepsShortWords(text, limit)
  }

  lemma SeparatorKeeps(c: char, text: string, limit: int)
    requires limit >= 1 && (c == ' ' || c == '\n' || limit <= 2)
    requires (forall k :: 0 <= k < |text| && IsSpace(text[k]) ==> text[k] == c) && (text != "" ==> text[0] != c)
    ensures KeepsShortWords(text, limit)
  {
    hide IsSpace, Pieces;
    if c == ' ' || c == '\n' {
      ShortWordsStayWhole(text, limit);
    } else {
      forall i, j | IsWord(text, i, j) && j - i <= limit
        ensures exists p :: p in SplitPieces(text, limit) && Holds(p, i, j)
      {
        if |text| <= limit {
          assert Holds(SplitPieces(text, limit)[0], i, j);
        } else {
          TinyLimitKeeps(text, 0, limit, i, j);
        }
      }
    }
  }

  lemma {:induction false} NoneOf(s: string, pattern: string, from: int)
    requires pattern != [] && pattern[0] !in s
    ensures LastIndexOf(s, pattern, from) == -1
    decreases from + 1
  {
    if from >= 0 {
      assert from + |pattern| <= |s| ==> s[from..from + |pattern|][0] == s[from];
      NoneOf(s, pattern, from - 1);
    }
  }

  lemma NoneToCutAt(text: string, limit: int)
    requires ' ' !in text && '\n' !in text
    ensures CutAt(text, limit) == limit
  {
    NoneOf(text, "\n\n", limit);
    NoneOf(text, "\n", limit);
    NoneOf(text, " ", limit);
  }

  /** A letter, the character, and a word of the limit's length. */
  function Trap(c: char, limit: nat): string {
    ['a', c] + seq(limit, _ => 'b')
  }

  /** For any other whitespace character, a tab say, and any limit from 3 up, the cut is inside the word. */
  lemma OtherSpacesAreNotSeen(c: char, limit: int)
    requires IsSpace(c) && c != ' ' && c != '\n' && limit >= 3
    ensures IsWord(Trap(c, limit), 2, limit + 2) && !SeparatesWords(c, Trap(c, limit), limit)
  {
    hide CutAt, LastIndexOf, At, Pieces;
    var text := Trap(c, limit);
    assert !IsSpace('a') && !IsSpace('b');
    assert forall k :: 2 <= k < |text| ==> text[k] == 'b';
    assert IsWord(text, 2, limit + 2);
    NoneToCutAt(text, limit);
    assert text[0..] == text;
    PiecesStep(text, 0, limit);
    var next := limit + Leading(text[limit..]);
    PiecesStartAt(text, next, limit);
    assert SplitPieces(text, limit) == [Piece(0, Trimmed(text[..limit]))] + Pieces(text, next, limit);
    assert forall p :: p in SplitPieces(text, limit) ==> !Holds(p, 2, limit + 2);
  }

  /** For each limit: a whitespace character keeps short words apart in all texts exactly if it is a space
      or a newline, or the limit is 1 or 2; the others are not looked for. */
  lemma SpaceAndNewlineSeparate(c: char, limit: int)
    requires IsSpace(c) && limit >= 1
    ensures c == ' ' || c == '\n' || limit <= 2 <==> forall text: string :: SeparatesWords(c, text, limit)
  {
    hide IsSpace, KeepsShortWords;
    if c == ' ' || c == '\n' || limit <= 2 {
      forall text: string ensures SeparatesWords(c, text, limit) {
        if (forall k :: 0 <= k < |text| && IsSpace(text[k]) ==> text[k] == c) && (text != "" ==> text[0] != c) {
          SeparatorKeeps(c, text, limit);
        }
      }
    } else {
      OtherSpacesAreNotSeen(c, limit);
    }
  }

  // ----------------------------------------------------------------- limit 0

  lemma CutAtZero(s: string)
    ensures CutAt(s, 0) == 0
  {
  }

  /** What remains after a turn with limit 0, which always cuts at 0. */
  function AfterTurnAtZero(s: string): string {
    CutAtZero(s);
    s[CutAt(s, 0)..][Leading(s[CutAt(s, 0)..])..]
  }

  /** A turn with limit 0 changes nothing exactly if the text does not start with whitespace. */
  lemma NoProgressAtZero(s: string)
    ensures AfterTurnAtZero(s) == s <==> s == "" || !IsSpace(s[0])
  {
    hide IsSpace, CutAt;
    CutAtZero(s);
    assert s[0..] == s;
    assert Leading(s) > 0 ==> |s[Leading(s)..]| < |s|;
  }

  function TurnsAtZero(s: string, n: nat): string {
    if n == 0 then s else AfterTurnAtZero(TurnsAtZero(s, n - 1))
  }

  lemma {:induction false} WordsRemainAtZero(s: string, n: nat)
    requires !AllSpace(s)
    ensures !AllSpace(TurnsAtZero(s, n))
  {
    hide IsSpace, CutAt;
    if n > 0 {
      var t := TurnsAtZero(s, n - 1);
      WordsRemainAtZero(s, n - 1);
      CutAtZero(t);
      assert t[0..] == t;
      assert t == t[..Leading(t)] + t[Leading(t)..];
    }
  }

  /** With limit 0 the loop ends exactly for text that is all whitespace, an empty one included. */
  lemma EndsAtZeroIffAllSpace(s: string)
    ensures (exists n: nat :: TurnsAtZero(s, n) == "") <==> AllSpace(s)
  {
    hide IsSpace, CutAt;
    if AllSpace(s) {
      CutAtZero(s);
      assert s[0..] == s;
      assert TurnsAtZero(s, 1) == AfterTurnAtZero(TurnsAtZero(s, 0)) == s[Leading(s)..];
      assert Leading(s) == |s|;
      assert TurnsAtZero(s, 1) == "";
    } else {
      forall n: nat ensures TurnsAtZero(s, n) != "" {
        WordsRemainAtZero(s, n);
      }
    }
  }
}

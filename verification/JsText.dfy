/** JavaScript's whitespace and trimming.  A char stands for one UTF-16 code unit that is no surrogate. */
module JsText {

  /** What trimStart and trimEnd remove. */
  predicate IsSpace(c: char) {
    || '\t' <= c <= '\r' || c == ' ' || c == '\U{A0}' || c == '\U{1680}' || '\U{2000}' <= c <= '\U{200A}'
    || c == '\U{2028}' || c == '\U{2029}' || c == '\U{202F}' || c == '\U{205F}' || c == '\U{3000}' || c == '\U{FEFF}'
  }

  predicate AllSpace(s: string) {
    forall i :: 0 <= i < |s| ==> IsSpace(s[i])
  }

  /** The number of leading spaces. */
  function Leading(s: string): nat
    ensures Leading(s) <= |s| && AllSpace(s[..Leading(s)])
    ensures Leading(s) < |s| ==> !IsSpace(s[Leading(s)])
  {
    if s == [] || !IsSpace(s[0]) then 0 else 1 + Leading(s[1..])
  }

  /** The length that is left without trailing spaces. */
  function Trimmed(s: string): (n: nat)
    ensures n <= |s| && AllSpace(s[n..]) && (n > 0 ==> !IsSpace(s[n - 1]))
  {
    if s == [] || !IsSpace(s[|s| - 1]) then |s| else Trimmed(s[..|s| - 1])
  }

  lemma {:induction false} NotTrimmedAway(s: string)
    requires s != [] && !IsSpace(s[0])
    ensures Trimmed(s) > 0
  {
    hide IsSpace;
    if IsSpace(s[|s| - 1]) {
      NotTrimmedAway(s[..|s| - 1]);
    }
  }

  function Trim(s: string): string {
    var t := s[Leading(s)..];
    t[..Trimmed(t)]
  }

  predicate IsTrimmed(s: string) {
    s == [] || (!IsSpace(s[0]) && !IsSpace(s[|s| - 1]))
  }

  lemma TrimIsTrimmed(s: string)
    ensures IsTrimmed(Trim(s))
  {
    hide IsSpace;
    var t := s[Leading(s)..];
    if t != [] {
      assert t[0] == s[Leading(s)];
      NotTrimmedAway(t);
    }
  }

  /** Trimming removes whitespace at both ends, and nothing else. */
  lemma TrimCutsSpace(s: string) returns (before: string, after: string)
    ensures s == before + Trim(s) + after && AllSpace(before) && AllSpace(after) && IsTrimmed(Trim(s))
  {
    hide IsSpace;
    TrimIsTrimmed(s);
    var t := s[Leading(s)..];
    before, after := s[..Leading(s)], t[Trimmed(t)..];
    assert s == before + t && t == t[..Trimmed(t)] + after;
  }

  lemma TrimFixes(s: string)
    ensures Trim(s) == s <==> IsTrimmed(s)
  {
    hide IsSpace;
    TrimIsTrimmed(s);
    if IsTrimmed(s) && s != [] {
      assert Leading(s) == 0 && s[0..] == s;
    }
  }

  lemma TrimAfterSpace(s: string)
    ensures Trim(" " + s) == Trim(s)
  {
    var t := " " + s;
    assert t[1..] == s;
    assert Leading(t) == 1 + Leading(s);
    assert t[Leading(t)..] == s[Leading(s)..];
  }

  /** texts.join(separator) */
  function Join(texts: seq<string>, separator: string): string {
    if texts == [] then ""
    else if |texts| == 1 then texts[0]
    else texts[0] + separator + Join(texts[1..], separator)
  }
}

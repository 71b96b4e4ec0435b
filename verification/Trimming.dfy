/** Cutting white space off both ends of a text, for whatever counts as white space. */
module Trimming {
  function TrimStart(isSpace: char -> bool, s: string): string {
    if s != "" && isSpace(s[0]) then TrimStart(isSpace, s[1..]) else s
  }

  function TrimEnd(isSpace: char -> bool, s: string): string {
    if s != "" && isSpace(s[|s| - 1]) then TrimEnd(isSpace, s[..|s| - 1]) else s
  }

  function TrimBy(isSpace: char -> bool, s: string): string { TrimEnd(isSpace, TrimStart(isSpace, s)) }

  lemma {:induction false} TrimStartShrinks(isSpace: char -> bool, s: string)
    ensures |TrimStart(isSpace, s)| < |s| || TrimStart(isSpace, s) == s
    ensures TrimStart(isSpace, s) == s <==> s == "" || !isSpace(s[0])
    ensures forall c :: c in TrimStart(isSpace, s) ==> c in s
    decreases |s|
  {
    if s != "" && isSpace(s[0]) {
      TrimStartShrinks(isSpace, s[1..]);
    }
  }

  lemma {:induction false} TrimEndShrinks(isSpace: char -> bool, s: string)
    ensures |TrimEnd(isSpace, s)| < |s| || TrimEnd(isSpace, s) == s
    ensures TrimEnd(isSpace, s) == s <==> s == "" || !isSpace(s[|s| - 1])
    ensures forall c :: c in TrimEnd(isSpace, s) ==> c in s
    decreases |s|
  {
    if s != "" && isSpace(s[|s| - 1]) {
      TrimEndShrinks(isSpace, s[..|s| - 1]);
    }
  }

  /** Trimming keeps characters, and leaves exactly the texts alone that neither start nor end with white space. */
  lemma TrimKeepsExactlyTheTrimmed(isSpace: char -> bool, s: string)
    ensures TrimBy(isSpace, s) == s <==> s == "" || (!isSpace(s[0]) && !isSpace(s[|s| - 1]))
    ensures forall c :: c in TrimBy(isSpace, s) ==> c in s
  {
    TrimStartShrinks(isSpace, s);
    TrimEndShrinks(isSpace, TrimStart(isSpace, s));
  }

  predicate AllSpace(isSpace: char -> bool, s: string) { forall i :: 0 <= i < |s| ==> isSpace(s[i]) }

  lemma {:induction false} TrimStartSplits(isSpace: char -> bool, s: string) returns (left: string)
    ensures s == left + TrimStart(isSpace, s) && AllSpace(isSpace, left)
    ensures TrimStart(isSpace, s) == "" || !isSpace(TrimStart(isSpace, s)[0])
    decreases |s|
  {
    if s != "" && isSpace(s[0]) {
      var more := TrimStartSplits(isSpace, s[1..]);
      left := [s[0]] + more;
    } else {
      left := "";
    }
  }

  lemma {:induction false} TrimEndSplits(isSpace: char -> bool, s: string) returns (right: string)
    ensures s == TrimEnd(isSpace, s) + right && AllSpace(isSpace, right)
    ensures var t := TrimEnd(isSpace, s); t == "" || (!isSpace(t[|t| - 1]) && t[0] == s[0])
    decreases |s|
  {
    if s != "" && isSpace(s[|s| - 1]) {
      var more := TrimEndSplits(isSpace, s[..|s| - 1]);
      right := more + [s[|s| - 1]];
    } else {
      right := "";
    }
  }

  /** Only white space is cut off, on both sides, and all of it. */
  lemma TrimCutsExactlyTheEnds(isSpace: char -> bool, s: string) returns (left: string, right: string)
    ensures s == left + TrimBy(isSpace, s) + right
    ensures AllSpace(isSpace, left) && AllSpace(isSpace, right)
    ensures var t := TrimBy(isSpace, s); t == "" || (!isSpace(t[0]) && !isSpace(t[|t| - 1]))
  {
    left := TrimStartSplits(isSpace, s);
    right := TrimEndSplits(isSpace, TrimStart(isSpace, s));
    assert left + (TrimBy(isSpace, s) + right) == left + TrimBy(isSpace, s) + right;
  }
}

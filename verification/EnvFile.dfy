/** The `.env` patcher: variables are read, set and removed by rewriting the lines of the file text. */
module EnvFile {
  import opened Wrappers

  // ---------------------------------------------------------------- text and lines

  /** Split at every LF or CRLF, as the pattern \r?\n does. */
  function Split(s: string): (pieces: seq<string>)
    ensures pieces != []
  {
    if s == "" then [""]
    else if s[0] == '\n' then [""] + Split(s[1..])
    else if s[0] == '\r' && |s| > 1 && s[1] == '\n' then [""] + Split(s[2..])
    else var rest := Split(s[1..]); [[s[0]] + rest[0]] + rest[1..]
  }

  function NonEmpty(lines: seq<string>): seq<string> {
    if lines == [] then [] else (if lines[0] == "" then [] else [lines[0]]) + NonEmpty(lines[1..])
  }

  /** The lines of the file; a file that is not there has none. */
  function ReadLines(text: Option<string>): seq<string> { if text.None? then [] else NonEmpty(Split(text.value)) }

  function Join(lines: seq<string>): string {
    if lines == [] then "" else if |lines| == 1 then lines[0] else lines[0] + ("\n" + Join(lines[1..]))
  }

  function WriteLines(lines: seq<string>): string { Join(lines) + "\n" }

  predicate IsLine(l: string) { l != "" && '\n' !in l }

  predicate AllLines(lines: seq<string>) { forall i :: 0 <= i < |lines| ==> IsLine(lines[i]) }

  /** A line without the CR that a following LF takes with it. */
  function Chomp(l: string): string { if l != "" && l[|l| - 1] == '\r' then l[..|l| - 1] else l }

  function Chomped(lines: seq<string>): seq<string> {
    if lines == [] then [] else (if Chomp(lines[0]) == "" then [] else [Chomp(lines[0])]) + Chomped(lines[1..])
  }

  lemma {:induction false} SplitsOneLine(line: string, rest: string)
    requires '\n' !in line
    ensures Split(line + ("\n" + rest)) == [Chomp(line)] + Split(rest)
    decreases |line|
  {
    var s := line + ("\n" + rest);
    if line == "" {
      assert s == "\n" + rest && s[1..] == rest;
    } else if |line| == 1 && line[0] == '\r' {
      assert s[2..] == rest && Chomp(line) == "";
    } else {
      assert s[0] == line[0] && line[0] in line;
      assert s[1..] == line[1..] + ("\n" + rest);
      assert |line| > 1 ==> s[1] == line[1] && line[1] in line;
      SplitsOneLine(line[1..], rest);
      assert [line[0]] + Chomp(line[1..]) == Chomp(line);
    }
  }

  /** What a written file reads as: the lines, each short of a trailing CR. */
  lemma {:induction false} WrittenLinesReadBack(lines: seq<string>)
    requires AllLines(lines)
    ensures ReadLines(Some(WriteLines(lines))) == Chomped(lines)
    decreases |lines|
  {
    if lines == [] {
      assert WriteLines(lines) == "\n";
      assert Split("\n") == [""] + Split("") by { assert "\n"[1..] == ""; }
      assert NonEmpty(["", ""]) == [] by { assert ["", ""][1..] == [""] && [""][1..] == []; }
    } else if |lines| == 1 {
      assert WriteLines(lines) == lines[0] + ("\n" + "");
      SplitsOneLine(lines[0], "");
      assert lines[1..] == [];
      NonEmptyFirst(Chomp(lines[0]), [""]);
      assert NonEmpty([""]) == [] by { assert [""][1..] == []; }
    } else {
      assert WriteLines(lines) == lines[0] + ("\n" + WriteLines(lines[1..]));
      SplitsOneLine(lines[0], WriteLines(lines[1..]));
      NonEmptyFirst(Chomp(lines[0]), Split(WriteLines(lines[1..])));
      WrittenLinesReadBack(lines[1..]);
    }
  }

  lemma NonEmptyFirst(line: string, rest: seq<string>)
    ensures NonEmpty([line] + rest) == (if line == "" then [] else [line]) + NonEmpty(rest)
  {
    assert ([line] + rest)[1..] == rest;
  }

  predicate NoTrailingCr(lines: seq<string>) { forall i :: 0 <= i < |lines| ==> Chomp(lines[i]) == lines[i] }

  lemma {:induction false} ChompedIsShorter(lines: seq<string>)
    requires AllLines(lines)
    ensures |Chomped(lines)| <= |lines|
    ensures Chomped(lines) == lines <==> NoTrailingCr(lines)
    decreases |lines|
  {
    if lines != [] {
      ChompedIsShorter(lines[1..]);
      assert NoTrailingCr(lines) <==> Chomp(lines[0]) == lines[0] && NoTrailingCr(lines[1..]) by {
        assert forall i :: 1 <= i < |lines| ==> lines[i] == lines[1..][i - 1];
      }
      assert lines == [lines[0]] + lines[1..];
      if Chomp(lines[0]) != "" {
        ConsInjective(Chomp(lines[0]), Chomped(lines[1..]), lines[0], lines[1..]);
      }
    }
  }

  lemma ConsInjective(x: string, xs: seq<string>, y: string, ys: seq<string>)
    ensures [x] + xs == [y] + ys <==> x == y && xs == ys
  {
    var a, b := [x] + xs, [y] + ys;
    assert a[0] == x && b[0] == y && a[1..] == xs && b[1..] == ys;
  }

  /** Writing lines and reading the file gives the same lines exactly when none of them ends in a CR. */
  lemma WriteThenReadIsIdentity(lines: seq<string>)
    requires AllLines(lines)
    ensures ReadLines(Some(WriteLines(lines))) == lines <==> NoTrailingCr(lines)
  {
    WrittenLinesReadBack(lines);
    ChompedIsShorter(lines);
  }

  lemma {:induction false} SplitPieces(s: string)
    ensures forall i :: 0 <= i < |Split(s)| ==> '\n' !in Split(s)[i]
    decreases |s|
  {
    if s != "" {
      if s[0] == '\n' {
        SplitPieces(s[1..]);
      } else if s[0] == '\r' && |s| > 1 && s[1] == '\n' {
        SplitPieces(s[2..]);
      } else {
        SplitPieces(s[1..]);
        assert '\n' !in Split(s[1..])[0];
      }
    }
  }

  lemma {:induction false} NonEmptyLines(pieces: seq<string>)
    requires forall i :: 0 <= i < |pieces| ==> '\n' !in pieces[i]
    ensures AllLines(NonEmpty(pieces))
    decreases |pieces|
  {
    if pieces != [] {
      NonEmptyLines(pieces[1..]);
    }
  }

  lemma ReadLinesAreLines(text: Option<string>)
    ensures AllLines(ReadLines(text))
  {
    if text.Some? {
      SplitPieces(text.value);
      NonEmptyLines(Split(text.value));
    }
  }

  // ---------------------------------------------------------------- variables

  predicate ValidKey(k: string) { '=' !in k && '\n' !in k }

  function Find(lines: seq<string>, k: string): Option<string> {
    if lines == [] then None
    else if k + "=" <= lines[0] then Some(lines[0][|k| + 1..])
    else Find(lines[1..], k)
  }

  function Get(text: Option<string>, k: string): Option<string> { Find(ReadLines(text), k) }

  function Assignment(k: string, v: string): string { k + "=" + v }

  function ReplacedLine(line: string, k: string, v: string): string {
    if k + "=" <= line then Assignment(k, v) else line
  }

  /** Every line that assigns the key, replaced. */
  function Replaced(lines: seq<string>, k: string, v: string): seq<string> {
    seq(|lines|, i requires 0 <= i < |lines| => ReplacedLine(lines[i], k, v))
  }

  function Patched(lines: seq<string>, k: string, v: string): seq<string> {
    Replaced(lines, k, v) + (if Find(lines, k).Some? then [] else [Assignment(k, v)])
  }

  function Without(lines: seq<string>, k: string): seq<string> {
    if lines == [] then []
    else (if k + "=" <= lines[0] then [] else [lines[0]]) + Without(lines[1..], k)
  }

  lemma WithoutOneMore(lines: seq<string>, k: string, next: seq<string>, i: nat)
    requires i < |lines|
    ensures next + Without(lines[i..], k)
         == (if k + "=" <= lines[i] then next else next + [lines[i]]) + Without(lines[i + 1..], k)
  {
    var rest := lines[i..];
    assert rest[0] == lines[i] && rest[1..] == lines[i + 1..];
  }

  function Set(text: Option<string>, k: string, v: string): Option<string> {
    Some(WriteLines(Patched(ReadLines(text), k, v)))
  }

  function Remove(text: Option<string>, k: string): Option<string> { Some(WriteLines(Without(ReadLines(text), k))) }

  /** The service, over the text of one file. */
  class EnvPatch {
    var text: Option<string>

    constructor (text: Option<string>)
      ensures this.text == text
    {
      this.text := text;
    }

    method GetVar(k: string) returns (v: Option<string>)
      ensures v == Get(text, k)
    {
      var lines := ReadLines(text);
      var i := 0;
      while i < |lines|
        invariant 0 <= i <= |lines|
        invariant Find(lines, k) == Find(lines[i..], k)
      {
        if k + "=" <= lines[i] {
          return Some(lines[i][|k| + 1..]);
        }
        i := i + 1;
      }
      return None;
    }

    method SetVar(k: string, v: string)
      modifies this
      ensures text == Set(old(text), k, v)
    {
      var lines := ReadLines(text);
      var next, found := [], false;
      for i := 0 to |lines|
        invariant |next| == i && forall j :: 0 <= j < i ==> next[j] == ReplacedLine(lines[j], k, v)
        invariant found <==> exists j :: 0 <= j < i && k + "=" <= lines[j]
        invariant text == old(text)
      {
        if k + "=" <= lines[i] {
          found := true;
          next := next + [k + "=" + v];
        } else {
          next := next + [lines[i]];
        }
      }
      assert next == Replaced(lines, k, v);
      FindSucceedsWhenSomeLineMatches(lines, k);
      if !found {
        next := next + [k + "=" + v];
      }
      assert next == Patched(lines, k, v);
      text := Some(WriteLines(next));
    }

    method RemoveVar(k: string)
      modifies this
      ensures text == Remove(old(text), k)
    {
      var lines := ReadLines(text);
      var next := [];
      var i := 0;
      while i < |lines|
        invariant 0 <= i <= |lines|
        invariant Without(lines, k) == next + Without(lines[i..], k)
        invariant text == old(text)
      {
        WithoutOneMore(lines, k, next, i);
        if !(k + "=" <= lines[i]) {
          next := next + [lines[i]];
        }
        i := i + 1;
      }
      assert next + Without(lines[i..], k) == next;
      text := Some(WriteLines(next));
    }
  }

  lemma {:induction false} FindSucceedsWhenSomeLineMatches(lines: seq<string>, k: string)
    ensures Find(lines, k).Some? <==> exists j :: 0 <= j < |lines| && k + "=" <= lines[j]
    decreases |lines|
  {
    if lines != [] {
      FindSucceedsWhenSomeLineMatches(lines[1..], k);
      assert forall j :: 1 <= j < |lines| ==> lines[j] == lines[1..][j - 1];
      assert forall j :: 0 <= j < |lines[1..]| ==> lines[1..][j] == lines[j + 1];
    }
  }

  // ---------------------------------------------------------------- what a patch does to every variable

  function ChompValue(v: Option<string>): Option<string> { if v.None? then None else Some(Chomp(v.value)) }

  lemma ChompKeepsAssignment(line: string, k: string)
    ensures k + "=" <= Chomp(line) <==> k + "=" <= line
    ensures k + "=" <= line ==> Chomp(line)[|k| + 1..] == Chomp(line[|k| + 1..])
  {
    if k + "=" <= line {
      assert line[|k|] == (k + "=")[|k|];
    }
  }

  lemma {:induction false} FindInChomped(lines: seq<string>, k: string)
    ensures Find(Chomped(lines), k) == ChompValue(Find(lines, k))
    decreases |lines|
  {
    if lines != [] {
      FindInChomped(lines[1..], k);
      ChompKeepsAssignment(lines[0], k);
      var rest := Chomped(lines[1..]);
      if Chomp(lines[0]) != "" {
        assert ([Chomp(lines[0])] + rest)[1..] == rest;
      } else {
        assert [] + rest == rest;
      }
    }
  }

  lemma OtherKeysDoNotMatch(k: string, other: string, v: string)
    requires '=' !in k && '=' !in other && k != other
    ensures !(other + "=" <= Assignment(k, v))
  {
    var p, a := other + "=", Assignment(k, v);
    if |other| < |k| {
      assert p[|other|] == '=' && a[|other|] == k[|other|] && k[|other|] in k;
    } else if |k| < |other| {
      assert a[|k|] == '=' && p[|k|] == other[|k|] && other[|k|] in other;
    } else {
      assert p[..|k|] == other && a[..|k|] == k;
    }
  }

  lemma {:induction false} FindAppended(lines: seq<string>, last: string, k: string)
    ensures Find(lines + [last], k)
         == if Find(lines, k).Some? then Find(lines, k)
            else if k + "=" <= last then Some(last[|k| + 1..]) else None
    decreases |lines|
  {
    var all := lines + [last];
    if lines == [] {
      assert all[1..] == [];
    } else {
      assert all[1..] == lines[1..] + [last];
      FindAppended(lines[1..], last, k);
    }
  }

  lemma {:induction false} FindInReplaced(lines: seq<string>, k: string, v: string, other: string)
    requires '=' !in k && '=' !in other
    ensures Find(Replaced(lines, k, v), other)
         == if other == k && Find(lines, k).Some? then Some(v) else if other == k then None else Find(lines, other)
    decreases |lines|
  {
    if lines != [] {
      FindInReplaced(lines[1..], k, v, other);
      var replaced := Replaced(lines, k, v);
      assert replaced[0] == ReplacedLine(lines[0], k, v) && replaced[1..] == Replaced(lines[1..], k, v);
      FoundInReplacedLine(lines[0], k, v, other);
    }
  }

  lemma FoundInReplacedLine(line: string, k: string, v: string, other: string)
    requires '=' !in k && '=' !in other
    ensures other + "=" <= ReplacedLine(line, k, v) <==> other + "=" <= line
    ensures other + "=" <= line ==>
              ReplacedLine(line, k, v)[|other| + 1..] == if other == k then v else line[|other| + 1..]
  {
    AssignmentIsFound(k, v);
    if other != k && k + "=" <= line {
      OtherKeysDoNotMatch(k, other, v);
      assert line == Assignment(k, line[|k| + 1..]);
      OtherKeysDoNotMatch(k, other, line[|k| + 1..]);
    }
  }

  lemma AssignmentIsFound(k: string, v: string)
    ensures k + "=" <= Assignment(k, v) && Assignment(k, v)[|k| + 1..] == v
  {
  }

  lemma FindInPatched(lines: seq<string>, k: string, v: string, other: string)
    requires '=' !in k && '=' !in other
    ensures Find(Patched(lines, k, v), other) == if other == k then Some(v) else Find(lines, other)
  {
    FindInReplaced(lines, k, v, other);
    AssignmentIsFound(k, v);
    FindAppended(Replaced(lines, k, v), Assignment(k, v), other);
    if other != k {
      OtherKeysDoNotMatch(k, other, v);
    }
    assert Replaced(lines, k, v) + [] == Replaced(lines, k, v);
  }

  lemma {:induction false} FindInWithout(lines: seq<string>, k: string, other: string)
    requires '=' !in k && '=' !in other
    ensures Find(Without(lines, k), other) == if other == k then None else Find(lines, other)
    decreases |lines|
  {
    if lines != [] {
      FindInWithout(lines[1..], k, other);
      if k + "=" <= lines[0] {
        assert [] + Without(lines[1..], k) == Without(lines[1..], k);
        if other != k {
          assert lines[0] == Assignment(k, lines[0][|k| + 1..]);
          OtherKeysDoNotMatch(k, other, lines[0][|k| + 1..]);
        }
      } else {
        assert Without(lines, k)[1..] == Without(lines[1..], k);
      }
    }
  }

  lemma PatchedAreLines(lines: seq<string>, k: string, v: string)
    requires AllLines(lines) && ValidKey(k) && '\n' !in v
    ensures AllLines(Patched(lines, k, v))
  {
    assert IsLine(Assignment(k, v));
  }

  lemma {:induction false} WithoutAreLines(lines: seq<string>, k: string)
    requires AllLines(lines)
    ensures AllLines(Without(lines, k))
    decreases |lines|
  {
    if lines != [] {
      WithoutAreLines(lines[1..], k);
    }
  }

  /** After a set of a one-line value: that variable, and every other one short of a trailing CR. */
  lemma SetIsAMapUpdate(text: Option<string>, k: string, v: string, other: string)
    requires ValidKey(k) && ValidKey(other) && '\n' !in v
    ensures Get(Set(text, k, v), other) == ChompValue(if other == k then Some(v) else Get(text, other))
  {
    var lines := ReadLines(text);
    ReadLinesAreLines(text);
    PatchedAreLines(lines, k, v);
    WrittenLinesReadBack(Patched(lines, k, v));
    FindInChomped(Patched(lines, k, v), other);
    FindInPatched(lines, k, v, other);
  }

  /** After a remove: the variable is gone whatever the file held, and every other one stays, short of a trailing CR. */
  lemma RemoveIsAMapRemove(text: Option<string>, k: string, other: string)
    requires ValidKey(k) && ValidKey(other)
    ensures Get(Remove(text, k), other) == ChompValue(if other == k then None else Get(text, other))
  {
    var lines := ReadLines(text);
    ReadLinesAreLines(text);
    WithoutAreLines(lines, k);
    WrittenLinesReadBack(Without(lines, k));
    FindInChomped(Without(lines, k), other);
    FindInWithout(lines, k, other);
  }

  lemma {:induction false} FoundValuesAreOneLine(lines: seq<string>, k: string)
    requires AllLines(lines)
    ensures Find(lines, k).Some? ==> '\n' !in Find(lines, k).value
    decreases |lines|
  {
    if lines != [] {
      FoundValuesAreOneLine(lines[1..], k);
    }
  }

  /** A value comes back as it was set exactly when it is one line that does not end in a CR. */
  lemma GetAfterSet(text: Option<string>, k: string, v: string)
    requires ValidKey(k)
    ensures Get(Set(text, k, v), k) == Some(v) <==> '\n' !in v && Chomp(v) == v
  {
    if '\n' in v {
      ReadLinesAreLines(Set(text, k, v));
      FoundValuesAreOneLine(ReadLines(Set(text, k, v)), k);
    } else {
      SetIsAMapUpdate(text, k, v, k);
    }
  }

  // ---------------------------------------------------------------- any sequence of patches

  datatype Patch = SetVar(key: string, value: string) | RemoveVar(key: string)

  function ApplyAll(text: Option<string>, patches: seq<Patch>): Option<string>
    decreases |patches|
  {
    if patches == [] then text
    else
      match patches[0]
      case SetVar(k, v) => ApplyAll(Set(text, k, v), patches[1..])
      case RemoveVar(k) => ApplyAll(Remove(text, k), patches[1..])
  }

  /** A finite map from names to values, patched the same way. */
  function ApplyToMap(vars: map<string, string>, patches: seq<Patch>): map<string, string>
    decreases |patches|
  {
    if patches == [] then vars
    else
      match patches[0]
      case SetVar(k, v) => ApplyToMap(vars[k := v], patches[1..])
      case RemoveVar(k) => ApplyToMap(vars - {k}, patches[1..])
  }

  function Lookup(vars: map<string, string>, k: string): Option<string> { if k in vars then Some(vars[k]) else None }

  /** The file holds these variables, none of them ending in a CR. */
  ghost predicate Holds(text: Option<string>, vars: map<string, string>) {
    && (forall k :: ValidKey(k) ==> Get(text, k) == Lookup(vars, k))
    && (forall k :: k in vars && ValidKey(k) ==> Chomp(vars[k]) == vars[k])
  }

  predicate GoodPatch(p: Patch) { ValidKey(p.key) && (p.SetVar? ==> '\n' !in p.value && Chomp(p.value) == p.value) }

  /** The patcher refines a finite map: after any sequence of patches the file holds what the map holds. */
  lemma {:induction false} PatchingRefinesAMap(text: Option<string>, vars: map<string, string>, patches: seq<Patch>)
    requires Holds(text, vars)
    requires forall i :: 0 <= i < |patches| ==> GoodPatch(patches[i])
    ensures Holds(ApplyAll(text, patches), ApplyToMap(vars, patches))
    decreases |patches|
  {
    if patches != [] {
      var p := patches[0];
      assert GoodPatch(p);
      var text', vars' :=
        if p.SetVar? then Set(text, p.key, p.value) else Remove(text, p.key),
        if p.SetVar? then vars[p.key := p.value] else vars - {p.key};
      forall k | ValidKey(k) ensures Get(text', k) == Lookup(vars', k) {
        if p.SetVar? { SetIsAMapUpdate(text, p.key, p.value, k); } else { RemoveIsAMapRemove(text, p.key, k); }
        assert Get(text, k) == Lookup(vars, k);
      }
      PatchingRefinesAMap(text', vars', patches[1..]);
    }
  }

  lemma {:induction false} WithoutReplaced(lines: seq<string>, k: string, v: string)
    ensures Without(Replaced(lines, k, v), k) == Without(lines, k)
    decreases |lines|
  {
    if lines != [] {
      WithoutReplaced(lines[1..], k, v);
      assert Replaced(lines, k, v)[1..] == Replaced(lines[1..], k, v);
    }
  }

  /** What is left of one line. */
  function Kept(line: string, k: string): seq<string> { if k + "=" <= line then [] else [line] }

  lemma WithoutFirst(line: string, rest: seq<string>, k: string)
    ensures Without([line] + rest, k) == Kept(line, k) + Without(rest, k)
  {
    var lines := [line] + rest;
    assert lines[0] == line && lines[1..] == rest;
  }

  lemma ChompedFirst(line: string, rest: seq<string>)
    ensures Chomped([line] + rest) == (if Chomp(line) == "" then [] else [Chomp(line)]) + Chomped(rest)
  {
    var lines := [line] + rest;
    assert lines[0] == line && lines[1..] == rest;
  }

  lemma {:induction false} WithoutChomped(lines: seq<string>, k: string)
    ensures Without(Chomped(lines), k) == Chomped(Without(lines, k))
    decreases |lines|
  {
    if lines != [] {
      var line, rest := lines[0], lines[1..];
      WithoutChomped(rest, k);
      ChompKeepsAssignment(line, k);
      assert lines == [line] + rest;
      ChompedFirst(line, rest);
      WithoutFirst(line, rest, k);
      WithoutFirst(Chomp(line), Chomped(rest), k);
      ChompedFirst(line, Without(rest, k));
      assert [] + Chomped(rest) == Chomped(rest) && [] + Without(rest, k) == Without(rest, k);
      assert [] + Without(Chomped(rest), k) == Without(Chomped(rest), k);
      assert Kept(line, k) == [] ==> Kept(Chomp(line), k) == [] && Chomp(line) != "";
    }
  }

  lemma {:induction false} WithoutAppended(lines: seq<string>, last: string, k: string)
    ensures Without(lines + [last], k) == Without(lines, k) + Kept(last, k)
    decreases |lines|
  {
    if lines == [] {
      assert lines + [last] == [last] + [];
      WithoutFirst(last, [], k);
    } else {
      var line, rest := lines[0], lines[1..];
      assert lines + [last] == [line] + (rest + [last]) && lines == [line] + rest;
      WithoutFirst(line, rest + [last], k);
      WithoutAppended(rest, last, k);
    }
  }

  lemma WithoutPatched(lines: seq<string>, k: string, v: string)
    ensures Without(Patched(lines, k, v), k) == Without(lines, k)
  {
    WithoutReplaced(lines, k, v);
    AssignmentIsFound(k, v);
    WithoutAppended(Replaced(lines, k, v), Assignment(k, v), k);
    assert Replaced(lines, k, v) + [] == Replaced(lines, k, v);
  }

  /** Patching one key leaves every line that does not assign it, comments and malformed lines too, in order. */
  lemma OtherLinesStay(text: Option<string>, k: string, v: string)
    requires ValidKey(k) && '\n' !in v
    ensures Without(ReadLines(Set(text, k, v)), k) == Chomped(Without(ReadLines(text), k))
    ensures ReadLines(Remove(text, k)) == Chomped(Without(ReadLines(text), k))
  {
    var lines := ReadLines(text);
    ReadLinesAreLines(text);
    PatchedAreLines(lines, k, v);
    WithoutAreLines(lines, k);
    WrittenLinesReadBack(Patched(lines, k, v));
    WrittenLinesReadBack(Without(lines, k));
    WithoutChomped(Patched(lines, k, v), k);
    WithoutPatched(lines, k, v);
  }

  /** A set replaces the key's lines where they stand, and appends one exactly when there is none. */
  lemma SetReplacesInPlace(text: Option<string>, k: string, v: string)
    requires ValidKey(k) && '\n' !in v && NoTrailingCr(ReadLines(text)) && Chomp(k + "=" + v) == k + "=" + v
    ensures var before, after := ReadLines(text), ReadLines(Set(text, k, v));
            && |after| >= |before|
            && (forall i :: 0 <= i < |before| ==>
                  after[i] == if k + "=" <= before[i] then k + "=" + v else before[i])
            && (if exists i :: 0 <= i < |before| && k + "=" <= before[i]
                then |after| == |before|
                else |after| == |before| + 1 && after[|before|] == k + "=" + v)
  {
    var lines := ReadLines(text);
    ReadLinesAreLines(text);
    PatchedAreLines(lines, k, v);
    FindSucceedsWhenSomeLineMatches(lines, k);
    PatchedHasNoCr(lines, k, v);
    WriteThenReadIsIdentity(Patched(lines, k, v));
  }

  lemma PatchedHasNoCr(lines: seq<string>, k: string, v: string)
    requires NoTrailingCr(lines) && Chomp(Assignment(k, v)) == Assignment(k, v)
    ensures NoTrailingCr(Patched(lines, k, v))
  {
    var replaced := Replaced(lines, k, v);
    forall i | 0 <= i < |replaced| ensures Chomp(replaced[i]) == replaced[i] {
      assert replaced[i] == ReplacedLine(lines[i], k, v);
    }
  }

  lemma {:induction false} SplitsUnterminated(line: string)
    requires '\n' !in line
    ensures Split(line) == [line]
    decreases |line|
  {
    if line != "" {
      assert line[0] in line && (|line| > 1 ==> line[1] in line);
      SplitsUnterminated(line[1..]);
      assert [line[0]] + line[1..] == line;
    }
  }

  /** Without that condition the claim is false: setting one variable changes another whose value ends in a CR. */
  lemma TrailingCrIsLost()
    ensures Get(Some("A=1\r"), "A") == Some("1\r")
    ensures Get(Set(Some("A=1\r"), "B", "2"), "A") == Some("1")
  {
    var text := "A=1\r";
    SplitsUnterminated(text);
    var one: seq<string> := [text];
    assert NonEmpty(one) == one by { assert one[1..] == []; }
    assert text[2..] == "1\r" && "A" + "=" <= text;
    SetIsAMapUpdate(Some(text), "B", "2", "A");
  }
}

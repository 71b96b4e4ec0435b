/**
  The strings the semantic cache hands to Redis: escaped TAG values inside a KNN query, and the
  `|`-joined identity that is hashed into an entry key. Each is read back by a reader that knows
  the syntax and nothing of the writer.
*/
module TagQuery {
  import opened Wrappers
  import opened Trimming

  const SPECIAL: set<char> :=
    {',', '.', '<', '>', '{', '}', '[', ']', '"', '\'', ':', ';', '!', '@', '#', '$', '%', '^', '&', '*',
     '(', ')', '-', '+', '=', '~', '|', '/', '\\', ' '}

  /** Characters no configured client or model key may contain: the special ones but the hyphen. */
  predicate IsTagSafeId(s: string) { s != "" && forall i :: 0 <= i < |s| ==> s[i] == '-' || s[i] !in SPECIAL }

  function Escape(value: string): string {
    if value == "" then "" else EscapeChar(value[0]) + Escape(value[1..])
  }

  function EscapeChar(c: char): string { if c in SPECIAL then ['\\', c] else [c] }

  /** A tag value with the name of its field. */
  datatype Tag = Tag(field: string, value: string)

  function Clause(t: Tag): string { "@" + t.field + ":{" + Escape(t.value) + "}" }

  function Clauses(tags: seq<Tag>): string {
    if tags == [] then "" else if |tags| == 1 then Clause(tags[0]) else Clause(tags[0]) + (" " + Clauses(tags[1..]))
  }

  /** The five tags every search filters on, in the order of the query. */
  function Filter(
    modelAlias: string, clientId: string, embeddingModel: string, systemSignature: string, callParams: string): seq<Tag>
  {
    [Tag("modelAlias", modelAlias), Tag("clientId", clientId), Tag("embeddingModel", embeddingModel),
     Tag("systemSignature", systemSignature), Tag("callParams", callParams)]
  }

  const KNN := ")=>[KNN "

  /** What follows the last clause. */
  function Tail(k: string): string { KNN + (k + " @vector $blob AS dist]") }

  function QueryText(tags: seq<Tag>, k: string): string {
    "(" + (Clauses(tags) + Tail(k))
  }

  function BuildKnnQuery(
    modelAlias: string, clientId: string, embeddingModel: string, systemSignature: string, callParams: string,
    k: string): string
  {
    QueryText(Filter(modelAlias, clientId, embeddingModel, systemSignature, callParams), k)
  }

  // ---------------------------------------------------------------- the reader

  datatype Read<T> = Read(value: T, rest: string)

  /** Punctuation of the query syntax, which a value may hold only behind a backslash. */
  predicate IsSyntax(c: char) {
    || ' ' <= c <= '/' || ':' <= c <= '>' || c == '@' || '[' <= c <= '^' || '{' <= c <= '~'
  }

  /**
    A tag value: up to the first unescaped brace, dropping one backslash before each escaped character.
    Any other punctuation without a backslash would end the tag or be an operator, and is refused.
  */
  function ReadValue(s: string): Option<Read<string>> {
    if s == "" then None
    else if s[0] == '}' then Some(Read("", s[1..]))
    else if s[0] == '\\' then
      if |s| < 2 then None
      else
        var r := ReadValue(s[2..]);
        if r.None? then None else Some(Read([s[1]] + r.value.value, r.value.rest))
    else if IsSyntax(s[0]) then None
    else
      var r := ReadValue(s[1..]);
      if r.None? then None else Some(Read([s[0]] + r.value.value, r.value.rest))
  }

  /** A field name, up to the colon. */
  function ReadName(s: string): Option<Read<string>> {
    if s == "" then None
    else if s[0] == ':' then Some(Read("", s[1..]))
    else
      var r := ReadName(s[1..]);
      if r.None? then None else Some(Read([s[0]] + r.value.value, r.value.rest))
  }

  function ReadClause(s: string): Option<Read<Tag>> {
    if s == "" || s[0] != '@' then None
    else
      var name := ReadName(s[1..]);
      if name.None? || name.value.rest == "" || name.value.rest[0] != '{' then None
      else
        var value := ReadValue(name.value.rest[1..]);
        if value.None? then None else Some(Read(Tag(name.value.value, value.value.value), value.value.rest))
  }

  /** At most `limit` clauses with single spaces between them. */
  function ReadClauses(s: string, limit: nat): Option<Read<seq<Tag>>>
    decreases limit
  {
    if limit == 0 then None
    else
      var first := ReadClause(s);
      if first.None? then None
      else if first.value.rest == "" || first.value.rest[0] != ' '
      then Some(Read([first.value.value], first.value.rest))
      else
        var more := ReadClauses(first.value.rest[1..], limit - 1);
        if more.None? then None else Some(Read([first.value.value] + more.value.value, more.value.rest))
  }

  /** A parenthesised filter, and what follows its last clause. */
  function ReadQuery(query: string): Option<Read<seq<Tag>>> {
    if query == "" || query[0] != '(' then None
    else
      var tags := ReadClauses(query[1..], |query|);
      if tags.None? || tags.value.rest == "" || tags.value.rest[0] != ')' then None else tags
  }

  /** The tags the filter asks for. */
  function ReadFilter(query: string): Option<seq<Tag>> {
    var q := ReadQuery(query);
    if q.None? then None else Some(q.value.value)
  }

  function UpToSpace(s: string): string { if s == "" || s[0] == ' ' then "" else [s[0]] + UpToSpace(s[1..]) }

  /** How many neighbours the query asks for. */
  function ReadK(query: string): Option<string> {
    var q := ReadQuery(query);
    if q.None? || !(KNN <= q.value.rest) then None else Some(UpToSpace(q.value.rest[|KNN|..]))
  }

  lemma {:induction false} UpToSpaceStops(k: string, rest: string)
    requires ' ' !in k && rest != "" && rest[0] == ' '
    ensures UpToSpace(k + rest) == k
    decreases |k|
  {
    if k == "" {
      assert k + rest == rest;
    } else {
      assert (k + rest)[1..] == k[1..] + rest;
      UpToSpaceStops(k[1..], rest);
      assert [k[0]] + k[1..] == k;
    }
  }

  /** Every punctuation character is among those escaped. */
  lemma SyntaxIsEscaped(c: char)
    requires IsSyntax(c)
    ensures EscapeChar(c) == ['\\', c]
  {
  }

  /** One escaped character in front of a value that reads well. */
  lemma ReadsOneMore(c: char, tail: string, value: string, rest: string)
    requires ReadValue(tail) == Some(Read(value, rest))
    ensures ReadValue(EscapeChar(c) + tail) == Some(Read([c] + value, rest))
  {
    var s := EscapeChar(c) + tail;
    if c in SPECIAL {
      assert s[2..] == tail;
    } else {
      assert s[1..] == tail;
    }
  }

  lemma AppendAssoc(a: string, b: string, c: string)
    ensures (a + b) + c == a + (b + c)
  {
  }

  lemma {:induction false} ReadsEscapedValue(value: string, rest: string)
    ensures ReadValue(Escape(value) + ("}" + rest)) == Some(Read(value, rest))
    decreases |value|
  {
    if value == "" {
      assert Escape(value) + ("}" + rest) == "}" + rest;
      assert ("}" + rest)[1..] == rest;
    } else {
      ReadsEscapedValue(value[1..], rest);
      var tail := Escape(value[1..]) + ("}" + rest);
      ReadsOneMore(value[0], tail, value[1..], rest);
      AppendAssoc(EscapeChar(value[0]), Escape(value[1..]), "}" + rest);
      assert [value[0]] + value[1..] == value;
    }
  }

  lemma {:induction false} ReadsName(name: string, rest: string)
    requires ':' !in name
    ensures ReadName(name + (":" + rest)) == Some(Read(name, rest))
    decreases |name|
  {
    var s := name + (":" + rest);
    if name == "" {
      assert s == ":" + rest && s[1..] == rest;
    } else {
      ReadsName(name[1..], rest);
      assert s[1..] == name[1..] + (":" + rest);
      assert [name[0]] + name[1..] == name;
    }
  }

  lemma ReadsClause(t: Tag, rest: string)
    requires ':' !in t.field
    ensures ReadClause(Clause(t) + rest) == Some(Read(t, rest))
  {
    var afterName := "{" + (Escape(t.value) + ("}" + rest));
    var s := Clause(t) + rest;
    assert s[1..] == t.field + (":" + afterName);
    ReadsName(t.field, afterName);
    assert afterName[1..] == Escape(t.value) + ("}" + rest);
    ReadsEscapedValue(t.value, rest);
  }

  lemma {:induction false} ReadsClauses(tags: seq<Tag>, rest: string, limit: nat)
    requires tags != [] && |tags| <= limit
    requires forall i :: 0 <= i < |tags| ==> ':' !in tags[i].field
    requires rest != "" && rest[0] == ')'
    ensures ReadClauses(Clauses(tags) + rest, limit) == Some(Read(tags, rest))
    decreases |tags|
  {
    if |tags| == 1 {
      ReadsClause(tags[0], rest);
      assert [tags[0]] == tags;
    } else {
      ReadsClauses(tags[1..], rest, limit - 1);
      ReadsClauseThenMore(tags[0], Clauses(tags[1..]), tags[1..], rest, limit);
      assert [tags[0]] + tags[1..] == tags;
    }
  }

  lemma ReadsClauseThenMore(first: Tag, more: string, tags: seq<Tag>, rest: string, limit: nat)
    requires ':' !in first.field && limit > 0 && ReadClauses(more + rest, limit - 1) == Some(Read(tags, rest))
    ensures ReadClauses((Clause(first) + (" " + more)) + rest, limit) == Some(Read([first] + tags, rest))
  {
    var after := " " + (more + rest);
    ReadsClause(first, after);
    assert after[0] == ' ' && after[1..] == more + rest;
    assert (Clause(first) + (" " + more)) + rest == Clause(first) + after;
  }

  lemma QueryReads(tags: seq<Tag>, k: string)
    requires tags != [] && forall i :: 0 <= i < |tags| ==> ':' !in tags[i].field
    ensures ReadQuery(QueryText(tags, k)) == Some(Read(tags, Tail(k)))
  {
    var q, inside := QueryText(tags, k), Clauses(tags) + Tail(k);
    DropFirst("(", inside);
    ClausesAreLong(tags);
    assert Tail(k)[0] == ')';
    ReadsClauses(tags, Tail(k), |q|);
  }

  lemma DropFirst(first: string, s: string)
    requires |first| == 1
    ensures (first + s)[0] == first[0] && (first + s)[1..] == s
  {
  }

  /** Any filter reads back as the very tags, and the number, it was written from, whatever the values hold. */
  lemma FilterReadsBack(tags: seq<Tag>, k: string)
    requires tags != [] && forall i :: 0 <= i < |tags| ==> ':' !in tags[i].field
    ensures ReadFilter(QueryText(tags, k)) == Some(tags)
    ensures ' ' !in k ==> ReadK(QueryText(tags, k)) == Some(k)
  {
    QueryReads(tags, k);
    if ' ' !in k {
      UpToSpaceStops(k, " @vector $blob AS dist]");
      assert Tail(k)[|KNN|..] == k + " @vector $blob AS dist]";
    }
  }

  lemma {:induction false} ClausesAreLong(tags: seq<Tag>)
    ensures |Clauses(tags)| >= |tags|
    decreases |tags|
  {
    if |tags| > 1 {
      ClausesAreLong(tags[1..]);
    }
  }

  /** The five values of a KNN query are recovered for all strings; so two queries with one text filter alike. */
  lemma KnnQueryReadsBack(
    modelAlias: string, clientId: string, embeddingModel: string, systemSignature: string, callParams: string,
    k: string)
    ensures var query := BuildKnnQuery(modelAlias, clientId, embeddingModel, systemSignature, callParams, k);
            && ReadFilter(query) ==
                 Some([Tag("modelAlias", modelAlias), Tag("clientId", clientId), Tag("embeddingModel", embeddingModel),
                       Tag("systemSignature", systemSignature), Tag("callParams", callParams)])
            && (' ' !in k ==> ReadK(query) == Some(k))
  {
    var tags := Filter(modelAlias, clientId, embeddingModel, systemSignature, callParams);
    assert ':' !in "modelAlias" && ':' !in "clientId" && ':' !in "embeddingModel";
    assert ':' !in "systemSignature" && ':' !in "callParams";
    FilterReadsBack(tags, k);
  }

  // ---------------------------------------------------------------- what a TAG field matches

  /** A stored field value, cut at its commas. */
  function Pieces(field: string): seq<string> {
    if field == "" then [""]
    else
      var rest := Pieces(field[1..]);
      if field[0] == ',' then [""] + rest
      else if rest == [] then [[field[0]]] else [[field[0]] + rest[0]] + rest[1..]
  }

  /** White space as the search engine's tokeniser sees it: that of C's `isspace`. */
  predicate IsTagSpace(c: char) { c in {' ', '\t', '\n', '\r'} || 0x0b as char <= c <= 0x0c as char }

  function TrimTag(s: string): string { TrimBy(IsTagSpace, s) }

  /** The tags a stored field value is indexed under: its pieces, trimmed, without the empty ones. */
  function IndexedTags(field: string): set<string> {
    set piece | piece in Pieces(field) && TrimTag(piece) != "" :: TrimTag(piece)
  }

  predicate TagMatches(field: string, value: string) { value in IndexedTags(field) }

  /** Not empty, no comma, no white space at either end. */
  predicate CleanTag(s: string) {
    s != "" && ',' !in s && !IsTagSpace(s[0]) && !IsTagSpace(s[|s| - 1])
  }

  lemma {:induction false} PiecesHaveNoComma(field: string)
    ensures forall piece :: piece in Pieces(field) ==> ',' !in piece
    ensures ',' !in field ==> Pieces(field) == [field]
    ensures Pieces(field) != []
    decreases |field|
  {
    if field != "" {
      PiecesHaveNoComma(field[1..]);
      var rest := Pieces(field[1..]);
      assert rest[0] in rest;
      if ',' !in field {
        assert ',' !in field[1..];
        assert [field[0]] + field[1..] == field;
      }
    }
  }

  lemma {:induction false} PiecesAtComma(left: string, right: string)
    requires ',' !in left
    ensures Pieces(left + ("," + right)) == [left] + Pieces(right)
    decreases |left|
  {
    var field := left + ("," + right);
    if left == "" {
      assert field[0] == ',' && field[1..] == right;
    } else {
      assert field[1..] == left[1..] + ("," + right);
      PiecesAtComma(left[1..], right);
      var rest := [left[1..]] + Pieces(right);
      assert rest[1..] == Pieces(right);
      assert [left[0]] + left[1..] == left;
    }
  }

  /** Indexed tags are themselves clean, and a clean value is its own only tag. */
  lemma TagsOfAField(field: string)
    ensures forall tag :: tag in IndexedTags(field) ==> tag != "" && ',' !in tag
    ensures CleanTag(field) ==> IndexedTags(field) == {field}
    ensures ',' !in field ==> IndexedTags(field) == if TrimTag(field) == "" then {} else {TrimTag(field)}
  {
    PiecesHaveNoComma(field);
    TrimKeepsExactlyTheTrimmed(IsTagSpace, field);
    forall tag | tag in IndexedTags(field) ensures tag != "" && ',' !in tag {
      var piece :| piece in Pieces(field) && tag == TrimTag(piece);
      TrimKeepsExactlyTheTrimmed(IsTagSpace, piece);
    }
  }

  /** A stored value is found under itself and nothing else exactly when it is clean. */
  lemma TagMatchIsEqualityExactlyWhenClean(field: string)
    ensures (forall value :: TagMatches(field, value) <==> value == field) <==> CleanTag(field)
  {
    TagsOfAField(field);
    TrimKeepsExactlyTheTrimmed(IsTagSpace, field);
    if !CleanTag(field) {
      assert !TagMatches(field, field);
    }
  }

  /** An id that passes the configuration's check is clean unless a control character pads it. */
  lemma TagSafeIdsAreCleanUnlessPadded(s: string)
    requires IsTagSafeId(s)
    ensures CleanTag(s) <==> !IsTagSpace(s[0]) && !IsTagSpace(s[|s| - 1])
    ensures NoPipe(s)
  {
  }

  // ---------------------------------------------------------------- the entry identity

  /** What is hashed into an entry key. */
  function Identity(
    clientId: string, modelAlias: string, embeddingModel: string, systemSignature: string, callParams: string,
    text: string): string
  {
    clientId + ("|" + (modelAlias + ("|" + (embeddingModel + ("|" + AfterModel(systemSignature, callParams, text))))))
  }

  function AfterModel(systemSignature: string, callParams: string, text: string): string {
    systemSignature + ("|" + (callParams + ("|" + text)))
  }

  /** A digest in hexadecimal; its length is left open, so that hashing can be taken as injective. */
  predicate IsDigest(s: string) { s != "" && forall i :: 0 <= i < |s| ==> '0' <= s[i] <= '9' || 'a' <= s[i] <= 'f' }

  predicate NoPipe(s: string) { '|' !in s }

  lemma DigestsArePlain(s: string)
    requires IsDigest(s)
    ensures NoPipe(s) && CleanTag(s)
  {
    assert s[0] in s && s[|s| - 1] in s;
  }

  /** A piece without `|` in front of one, against any piece in front of one: equal, or the second goes on past it. */
  lemma Peel(a: string, x: string, z: string, y: string)
    requires NoPipe(a) && a + ("|" + x) == z + ("|" + y)
    ensures |z| >= |a|
    ensures |z| == |a| ==> z == a && x == y
    ensures |z| > |a| ==> z == a + ("|" + z[|a| + 1..]) && x == z[|a| + 1..] + ("|" + y)
  {
    var s, t := a + ("|" + x), z + ("|" + y);
    assert t[|z|] == '|' && s[|z|] == '|';
    if |z| < |a| {
      assert false;
    } else if |z| == |a| {
      assert s[..|a|] == a && t[..|a|] == z;
      assert s[|a| + 1..] == x && t[|a| + 1..] == y;
    } else {
      assert s[..|a|] == a && t[..|a|] == z[..|a|];
      assert s[|a|] == '|' && t[|a|] == z[|a|];
      assert s[|a| + 1..] == x && t[|a| + 1..] == z[|a| + 1..] + ("|" + y);
    }
  }

  lemma SplitAtPipe(a: string, x: string, b: string, y: string)
    requires NoPipe(a) && NoPipe(b) && a + ("|" + x) == b + ("|" + y)
    ensures a == b && x == y
  {
    Peel(a, x, b, y);
    Peel(b, y, a, x);
  }

  lemma SamePrefix(p: string, x: string, y: string)
    requires p + x == p + y
    ensures x == y
  {
    assert (p + x)[|p|..] == x && (p + y)[|p|..] == y;
  }

  /** Everything in an identity but the client. */
  datatype Parts = Parts(alias: string, systemSignature: string, callParams: string, text: string)

  /** What the gateway can put there: a configured alias, and two digests. */
  predicate GoodParts(x: Parts) { IsTagSafeId(x.alias) && IsDigest(x.systemSignature) && IsDigest(x.callParams) }

  /** An embedding model's name that cannot be taken for a digest and does not hold the separator. */
  predicate GoodModel(model: string) { NoPipe(model) && !IsDigest(model) }

  function IdentityOf(model: string, client: string, x: Parts): string {
    Identity(client, x.alias, model, x.systemSignature, x.callParams, x.text)
  }

  /** The end of a client name that reads on into another's identity: nothing, or one more digest and what follows. */
  predicate DigestTail(rest: string) {
    rest == "" || exists n :: 1 < n <= |rest| && DigestThenMore(rest, n)
  }

  predicate DigestThenMore(rest: string, n: nat)
    requires 1 < n <= |rest|
  {
    rest[0] == '|' && IsDigest(rest[1..n]) && (n == |rest| || rest[n] == '|')
  }

  predicate ExtendsBy(model: string, c: string, d: string, alias: string, sys: string, rest: string) {
    && IsTagSafeId(alias) && IsDigest(sys) && DigestTail(rest)
    && d == c + ("|" + (alias + ("|" + (model + ("|" + (sys + rest))))))
  }

  /** Client name d is c, an alias, the model and a digest, joined by `|`, and goes on as an identity would. */
  ghost predicate Extends(model: string, c: string, d: string) {
    exists alias, sys, rest :: ExtendsBy(model, c, d, alias, sys, rest)
  }

  /** Two clients whose identities cannot meet. */
  ghost predicate Apart(model: string, c: string, d: string) {
    c == d || (!Extends(model, c, d) && !Extends(model, d, c))
  }

  /** One client: the identity determines all the rest. */
  lemma SameClientSameParts(model: string, client: string, x: Parts, y: Parts)
    requires GoodParts(x) && GoodParts(y) && NoPipe(model)
    requires IdentityOf(model, client, x) == IdentityOf(model, client, y)
    ensures x == y
  {
    DigestsArePlain(x.systemSignature);
    DigestsArePlain(y.systemSignature);
    DigestsArePlain(x.callParams);
    DigestsArePlain(y.callParams);
    var c1, c2 := x.callParams + ("|" + x.text), y.callParams + ("|" + y.text);
    var b1 := AfterModel(x.systemSignature, x.callParams, x.text);
    var b2 := AfterModel(y.systemSignature, y.callParams, y.text);
    var a1, a2 := model + ("|" + b1), model + ("|" + b2);
    SamePrefix(client, "|" + (x.alias + ("|" + a1)), "|" + (y.alias + ("|" + a2)));
    SamePrefix("|", x.alias + ("|" + a1), y.alias + ("|" + a2));
    SplitAtPipe(x.alias, a1, y.alias, a2);
    SplitAtPipe(model, b1, model, b2);
    SplitAtPipe(x.systemSignature, c1, y.systemSignature, c2);
    SplitAtPipe(x.callParams, x.text, y.callParams, y.text);
  }

  /** A longer client name under one identity goes on through alias, model and signature of the shorter one. */
  lemma LongerClientExtends(model: string, c: string, x: Parts, d: string, y: Parts)
    requires GoodParts(x) && GoodParts(y) && GoodModel(model) && |c| < |d|
    requires IdentityOf(model, c, x) == IdentityOf(model, d, y)
    ensures Extends(model, c, d)
  {
    DigestsArePlain(x.systemSignature);
    DigestsArePlain(x.callParams);
    var after := y.alias + ("|" + (model + ("|" + AfterModel(y.systemSignature, y.callParams, y.text))));
    var inModel := AfterModel(x.systemSignature, x.callParams, x.text);
    var inAlias := model + ("|" + inModel);
    PastClient(c, x.alias + ("|" + inAlias), d, after);
    var z := d[|c| + 1..];
    Peel(x.alias, inAlias, z, after);
    if |z| == |x.alias| {
      ModelWouldBeSignature(model, x.systemSignature, x.callParams + ("|" + x.text), y);
    } else {
      var w := z[|x.alias| + 1..];
      Peel(model, inModel, w, after);
      if |w| == |model| {
        ModelWouldBeParams(model, x.systemSignature, x.callParams, x.text, y);
      } else {
        var v := w[|model| + 1..];
        TailIsDigests(x.systemSignature, x.callParams, x.text, v, after);
        assert ExtendsBy(model, c, d, x.alias, x.systemSignature, v[|x.systemSignature|..]);
      }
    }
  }

  lemma PastClient(c: string, x: string, d: string, y: string)
    requires |c| < |d| && c + ("|" + x) == d + ("|" + y)
    ensures d == c + ("|" + d[|c| + 1..]) && x == d[|c| + 1..] + ("|" + y)
  {
    var s, t := c + ("|" + x), d + ("|" + y);
    assert s[..|c|] == c && t[..|c|] == d[..|c|];
    assert s[|c|] == '|' && t[|c|] == d[|c|];
    assert s[|c| + 1..] == x && t[|c| + 1..] == d[|c| + 1..] + ("|" + y);
  }

  /** A name that stopped after the alias would make the model the digest behind it. */
  lemma ModelWouldBeSignature(model: string, sys: string, rest: string, y: Parts)
    requires NoPipe(model) && IsDigest(sys) && GoodParts(y)
    requires model + ("|" + (sys + ("|" + rest)))
          == y.alias + ("|" + (model + ("|" + AfterModel(y.systemSignature, y.callParams, y.text))))
    ensures model == sys
  {
    DigestsArePlain(sys);
    var after := AfterModel(y.systemSignature, y.callParams, y.text);
    SplitAtPipe(model, sys + ("|" + rest), y.alias, model + ("|" + after));
    SplitAtPipe(sys, rest, model, after);
  }

  /** One that stopped after the model would make the model the parameters' digest. */
  lemma ModelWouldBeParams(model: string, sys: string, params: string, text: string, y: Parts)
    requires NoPipe(model) && IsDigest(sys) && IsDigest(params) && GoodParts(y)
    requires AfterModel(sys, params, text)
          == y.alias + ("|" + (model + ("|" + AfterModel(y.systemSignature, y.callParams, y.text))))
    ensures model == params
  {
    DigestsArePlain(sys);
    DigestsArePlain(params);
    var after := AfterModel(y.systemSignature, y.callParams, y.text);
    SplitAtPipe(sys, params + ("|" + text), y.alias, model + ("|" + after));
    SplitAtPipe(params, text, model, after);
  }

  lemma TailIsDigests(sys: string, params: string, text: string, v: string, after: string)
    requires IsDigest(sys) && IsDigest(params) && AfterModel(sys, params, text) == v + ("|" + after)
    ensures |v| >= |sys| && v == sys + v[|sys|..] && DigestTail(v[|sys|..])
  {
    DigestsArePlain(sys);
    DigestsArePlain(params);
    Peel(sys, params + ("|" + text), v, after);
    if |v| > |sys| {
      var u := v[|sys| + 1..];
      Peel(params, text, u, after);
      var rest := v[|sys|..];
      assert rest == "|" + u;
      var n := |params| + 1;
      assert u[..|params|] == params;
      assert rest[1..n] == params;
      assert DigestThenMore(rest, n);
    }
  }

  /**
    The identity is injective for clients that are apart: it determines client, alias, signatures
    and text. The clients' names may hold anything else, `|` included.
  */
  lemma IdentityIsInjective(model: string, c: string, x: Parts, d: string, y: Parts)
    requires GoodParts(x) && GoodParts(y) && GoodModel(model) && Apart(model, c, d)
    requires IdentityOf(model, c, x) == IdentityOf(model, d, y)
    ensures c == d && x == y
  {
    if |c| < |d| {
      LongerClientExtends(model, c, x, d, y);
    } else if |d| < |c| {
      LongerClientExtends(model, d, y, c, x);
    } else {
      var s, t := IdentityOf(model, c, x), IdentityOf(model, d, y);
      assert s[..|c|] == c && t[..|c|] == d;
      SameClientSameParts(model, c, x, y);
    }
  }

  // ---------------------------------------------------------------- clients that are not apart

  const SOME_DIGEST := "0"

  /**
    A name a client may be given collides with another's: `c|alias|model|sys|params` under any alias
    and text has the identity of `c` under that alias and a text that spells out the rest.
  */
  lemma PipeInClientNameCollides(model: string, c: string, alias: string, sys: string, params: string, y: Parts)
    ensures var d := c + ("|" + (alias + ("|" + (model + ("|" + (sys + ("|" + params)))))));
            var text := y.alias + ("|" + (model + ("|" + AfterModel(y.systemSignature, y.callParams, y.text))));
            IdentityOf(model, d, y) == IdentityOf(model, c, Parts(alias, sys, params, text))
  {
  }

  ghost predicate Meet(model: string, c: string, x: Parts, d: string, y: Parts) {
    GoodParts(x) && GoodParts(y) && IdentityOf(model, c, x) == IdentityOf(model, d, y)
  }

  lemma DigestIsDigest()
    ensures IsDigest(SOME_DIGEST) && IsTagSafeId(SOME_DIGEST)
  {
  }

  lemma ExtensionMeets(model: string, c: string, d: string, alias: string, sys: string, rest: string)
    returns (x: Parts, y: Parts)
    requires ExtendsBy(model, c, d, alias, sys, rest)
    ensures Meet(model, c, x, d, y)
  {
    DigestIsDigest();
    y := Parts(SOME_DIGEST, SOME_DIGEST, SOME_DIGEST, "");
    var tail := model + ("|" + AfterModel(y.systemSignature, y.callParams, y.text));
    if rest == "" {
      x := Parts(alias, sys, SOME_DIGEST, tail);
      assert sys + rest == sys;
    } else {
      var n :| 1 < n <= |rest| && DigestThenMore(rest, n);
      var params, more := rest[1..n], rest[n..];
      assert rest == "|" + (params + more);
      var text := more + ("|" + (y.alias + ("|" + tail)));
      x := Parts(alias, sys, params, text[1..]);
      assert text[0] == '|' && text == "|" + text[1..];
      JoinsUp(c, alias, model, sys, params, more, "|" + (y.alias + ("|" + tail)));
    }
  }

  lemma JoinsUp(c: string, alias: string, model: string, sys: string, params: string, more: string, after: string)
    ensures (c + ("|" + (alias + ("|" + (model + ("|" + (sys + ("|" + (params + more))))))))) + after
         == c + ("|" + (alias + ("|" + (model + ("|" + (sys + ("|" + (params + (more + after)))))))))
  {
  }

  /** Which names collide: two clients can ever meet under one identity exactly when one name extends the other. */
  lemma ClientsMeetExactlyWhenOneExtendsTheOther(model: string, c: string, d: string)
    requires GoodModel(model) && c != d
    ensures (exists x, y :: Meet(model, c, x, d, y)) <==> !Apart(model, c, d)
  {
    if Extends(model, c, d) {
      var alias, sys, rest :| ExtendsBy(model, c, d, alias, sys, rest);
      var x, y := ExtensionMeets(model, c, d, alias, sys, rest);
    } else if Extends(model, d, c) {
      var alias, sys, rest :| ExtendsBy(model, d, c, alias, sys, rest);
      var y, x := ExtensionMeets(model, d, c, alias, sys, rest);
      assert Meet(model, c, x, d, y);
    } else if x, y :| Meet(model, c, x, d, y) {
      IdentityIsInjective(model, c, x, d, y);
    }
  }

  lemma ExtensionHasPipe(model: string, c: string, d: string, alias: string, sys: string, rest: string)
    requires ExtendsBy(model, c, d, alias, sys, rest)
    ensures !NoPipe(d)
  {
    assert d[|c|] == '|';
  }

  /** Clients without `|` in their names are apart. */
  lemma PlainClientsAreApart(model: string, c: string, d: string)
    requires NoPipe(c) && NoPipe(d)
    ensures Apart(model, c, d)
  {
    if alias, sys, rest :| ExtendsBy(model, c, d, alias, sys, rest) {
      ExtensionHasPipe(model, c, d, alias, sys, rest);
    }
    if alias, sys, rest :| ExtendsBy(model, d, c, alias, sys, rest) {
      ExtensionHasPipe(model, d, c, alias, sys, rest);
    }
  }
}

/**
  The two cache layers over whole runs: exact entries written with SET NX, semantic entries
  claimed and completed field by field, expiries and deletes at any time, and three ways to be
  served. What is proved is where a served reply came from.
*/
module CacheProvenance {
  import opened Wrappers
  import opened ChatTypes
  import opened LastUserMessage
  import opened StreamReplay
  import opened TagQuery
  import opened Trimming

  type Vector = seq<int>

  /** `params` is the serialised form of the generation parameters, absent ones spelled out. */
  datatype Request = Request(
    clientId: string, modelAlias: string, messages: seq<Message>, params: string,
    hasToolDefinitions: bool, hasToolCalls: bool, hasGatewayKey: bool)

  /** What the exact key hashes. */
  datatype ExactPayload = ExactPayload(
    modelAlias: string, clientId: string, messages: seq<Message>, systemSignature: string, params: string)

  /** Configuration and the functions the source takes from libraries. */
  datatype Gateway = Gateway(
    systemSignature: string -> string,     // of the prompts configured for an alias
    hashParams: string -> string,
    hashExact: ExactPayload -> string,
    hashEntry: string -> string,
    semanticEnabled: bool,
    embeddingModel: string,
    providerEnabled: string -> bool,       // per alias
    similarity: (Vector, Vector) -> real,
    minSimilarity: real)

  /** A finished answer on its way to the caches. */
  datatype StoreCall = StoreCall(request: Request, response: ChatResponse, didFallback: bool, cachedAt: string)

  predicate IsTooling(r: Request) {
    r.hasToolDefinitions || r.hasToolCalls || exists i :: 0 <= i < |r.messages| && r.messages[i].role == Tool
  }

  predicate CacheAllowed(g: Gateway, r: Request) {
    !IsTooling(r) && r.hasGatewayKey && r.clientId != "unknown" && g.providerEnabled(r.modelAlias)
  }

  predicate StoreAllowed(g: Gateway, c: StoreCall) {
    !c.didFallback && CacheAllowed(g, c.request) && ShouldStore(c.response)
  }

  predicate Servable(r: CachedReply) { r.finishReason == Stop && Trim(r.text) != "" }

  function Cached(c: StoreCall): CachedReply { ToCached(c.response, c.cachedAt) }

  function ExactKey(g: Gateway, r: Request): string {
    g.hashExact(ExactPayload(r.modelAlias, r.clientId, r.messages, g.systemSignature(r.modelAlias), r.params))
  }

  /** The text a request has in the semantic layer, when that is on and the request a single user turn, not blank. */
  function SemanticText(g: Gateway, r: Request): Option<string> {
    if g.semanticEnabled && IsSingleTurn(r.messages) then LastUserText(r.messages) else None
  }

  function EntryKey(g: Gateway, r: Request, text: string): string {
    g.hashEntry(Identity(r.clientId, r.modelAlias, g.embeddingModel, g.systemSignature(r.modelAlias),
                         g.hashParams(r.params), text))
  }

  /** The TAG fields and the vector, written in one HSET. */
  datatype Fields = Fields(tags: seq<Tag>, vector: Vector)

  function RequestFilter(g: Gateway, r: Request): seq<Tag> {
    Filter(r.modelAlias, r.clientId, g.embeddingModel, g.systemSignature(r.modelAlias), g.hashParams(r.params))
  }

  /** The fields written beside the vector, by name. */
  function TagsOf(g: Gateway, r: Request): seq<Tag> {
    [Tag("modelAlias", r.modelAlias), Tag("clientId", r.clientId), Tag("embeddingModel", g.embeddingModel),
     Tag("systemSignature", g.systemSignature(r.modelAlias)), Tag("callParams", g.hashParams(r.params))]
  }

  /** The semantic layer takes a request exactly when it is on and the request is one user message with text in it. */
  lemma SemanticTextExactly(g: Gateway, r: Request)
    ensures SemanticText(g, r).Some? <==>
              && g.semanticEnabled && |r.messages| == 1 && r.messages[0].role == User
              && Trim(r.messages[0].content) != ""
    ensures SemanticText(g, r).Some? ==> SemanticText(g, r).value == Trim(r.messages[0].content)
  {
    if IsSingleTurn(r.messages) {
      SingleTurnText(r.messages);
    }
  }

  // ---------------------------------------------------------------- who may use the caches

  /** A request goes past the caches exactly for one of six reasons. */
  lemma CacheIsBypassedExactly(g: Gateway, r: Request)
    ensures CacheAllowed(g, r) <==>
              && !r.hasToolDefinitions && !r.hasToolCalls
              && (forall i :: 0 <= i < |r.messages| ==> r.messages[i].role != Tool)
              && r.hasGatewayKey && r.clientId != "unknown" && g.providerEnabled(r.modelAlias)
  {
  }

  /** And an answer is not stored exactly for one of those, or for one of four of its own. */
  lemma StoreIsRefusedExactly(g: Gateway, c: StoreCall)
    ensures StoreAllowed(g, c) <==>
              && CacheAllowed(g, c.request) && !c.didFallback
              && c.response.finishReason == Stop && Trim(c.response.text) != "" && c.response.toolCalls == []
  {
  }

  // ---------------------------------------------------------------- the stores and their steps

  /** Every stored value remembers which store call wrote it. */
  datatype ExactEntry = ExactEntry(reply: CachedReply, from: nat)

  datatype SemanticEntry = SemanticEntry(
    reply: Option<CachedReply>, replyFrom: nat, fields: Option<Fields>, fieldsFrom: nat)

  datatype Stores = Stores(exact: map<string, ExactEntry>, semantic: map<string, SemanticEntry>, calls: seq<StoreCall>)

  const EMPTY := Stores(map[], map[], [])

  datatype Step =
    | Finish(call: StoreCall)              // an answer reaches the cache pipeline
    | SetExact(i: nat)                     // SET NX by store call i
    | ClaimReply(i: nat)                   // HSETNX reply by store call i
    | PutFields(i: nat, vector: Vector)    // HSET of tags and vector by store call i, after a claim or to heal
    | DropExact(key: string)               // expiry or delete
    | DropSemantic(key: string)

  predicate Enabled(g: Gateway, s: Stores, step: Step) {
    match step
    case SetExact(i) => i < |s.calls|
    case ClaimReply(i) => i < |s.calls| && SemanticText(g, s.calls[i].request).Some?
    case PutFields(i, _) => i < |s.calls| && SemanticText(g, s.calls[i].request).Some?
    case _ => true
  }

  function At(s: Stores, key: string): SemanticEntry {
    if key in s.semantic then s.semantic[key] else SemanticEntry(None, 0, None, 0)
  }

  function Forget(s: Stores, key: string): Stores { s.(semantic := s.semantic - {key}) }

  function KeyOf(g: Gateway, c: StoreCall): string
    requires SemanticText(g, c.request).Some?
  {
    EntryKey(g, c.request, SemanticText(g, c.request).value)
  }

  function Apply(g: Gateway, s: Stores, step: Step): Stores
    requires Enabled(g, s, step)
  {
    match step
    case Finish(call) => if StoreAllowed(g, call) then s.(calls := s.calls + [call]) else s
    case SetExact(i) =>
      var key := ExactKey(g, s.calls[i].request);
      if key in s.exact then s else s.(exact := s.exact[key := ExactEntry(Cached(s.calls[i]), i)])
    case ClaimReply(i) =>
      var key := KeyOf(g, s.calls[i]);
      if At(s, key).reply.Some? then s
      else s.(semantic := s.semantic[key := At(s, key).(reply := Some(Cached(s.calls[i])), replyFrom := i)])
    case PutFields(i, vector) =>
      var key := KeyOf(g, s.calls[i]);
      var fields := Fields(RequestFilter(g, s.calls[i].request), vector);
      s.(semantic := s.semantic[key := At(s, key).(fields := Some(fields), fieldsFrom := i)])
    case DropExact(key) => s.(exact := s.exact - {key})
    case DropSemantic(key) => Forget(s, key)
  }

  predicate IsRun(g: Gateway, s: Stores, steps: seq<Step>)
    decreases |steps|
  {
    steps == [] || (Enabled(g, s, steps[0]) && IsRun(g, Apply(g, s, steps[0]), steps[1..]))
  }

  function Run(g: Gateway, s: Stores, steps: seq<Step>): Stores
    requires IsRun(g, s, steps)
    decreases |steps|
  {
    if steps == [] then s else Run(g, Apply(g, s, steps[0]), steps[1..])
  }

  // ---------------------------------------------------------------- what is in the stores

  predicate GoodExact(g: Gateway, s: Stores, key: string, e: ExactEntry) {
    e.from < |s.calls| && key == ExactKey(g, s.calls[e.from].request) && e.reply == Cached(s.calls[e.from])
  }

  /** Store call i, under its own entry key. */
  predicate WroteTo(g: Gateway, s: Stores, key: string, i: nat) {
    i < |s.calls| && SemanticText(g, s.calls[i].request).Some? && key == KeyOf(g, s.calls[i])
  }

  predicate GoodSemantic(g: Gateway, s: Stores, key: string, e: SemanticEntry) {
    && (e.reply.Some? ==> WroteTo(g, s, key, e.replyFrom) && e.reply.value == Cached(s.calls[e.replyFrom]))
    && (e.fields.Some? ==>
          WroteTo(g, s, key, e.fieldsFrom) && e.fields.value.tags == RequestFilter(g, s.calls[e.fieldsFrom].request))
  }

  ghost predicate Inv(g: Gateway, s: Stores) {
    && (forall i :: 0 <= i < |s.calls| ==> StoreAllowed(g, s.calls[i]))
    && (forall k :: k in s.exact ==> GoodExact(g, s, k, s.exact[k]))
    && (forall k :: k in s.semantic ==> GoodSemantic(g, s, k, s.semantic[k]))
  }

  lemma FinishKeepsInv(g: Gateway, s: Stores, call: StoreCall)
    requires Inv(g, s) && StoreAllowed(g, call)
    ensures Inv(g, s.(calls := s.calls + [call]))
  {
    var t := s.(calls := s.calls + [call]);
    forall k | k in t.exact ensures GoodExact(g, t, k, t.exact[k]) {
      assert GoodExact(g, s, k, s.exact[k]);
    }
    forall k | k in t.semantic ensures GoodSemantic(g, t, k, t.semantic[k]) {
      assert GoodSemantic(g, s, k, s.semantic[k]);
    }
  }

  lemma ExactWriteKeepsInv(g: Gateway, s: Stores, exact: map<string, ExactEntry>)
    requires Inv(g, s)
    requires forall k :: k in exact ==> (k in s.exact && exact[k] == s.exact[k]) || GoodExact(g, s, k, exact[k])
    ensures Inv(g, s.(exact := exact))
  {
    var t := s.(exact := exact);
    forall k | k in t.exact ensures GoodExact(g, t, k, t.exact[k]) {
      assert GoodExact(g, s, k, t.exact[k]);
    }
    forall k | k in t.semantic ensures GoodSemantic(g, t, k, t.semantic[k]) {
      assert GoodSemantic(g, s, k, s.semantic[k]);
    }
  }

  lemma SemanticWriteKeepsInv(g: Gateway, s: Stores, semantic: map<string, SemanticEntry>)
    requires Inv(g, s)
    requires forall k :: k in semantic ==>
               (k in s.semantic && semantic[k] == s.semantic[k]) || GoodSemantic(g, s, k, semantic[k])
    ensures Inv(g, s.(semantic := semantic))
  {
    var t := s.(semantic := semantic);
    forall k | k in t.semantic ensures GoodSemantic(g, t, k, t.semantic[k]) {
      assert GoodSemantic(g, s, k, t.semantic[k]);
    }
    forall k | k in t.exact ensures GoodExact(g, t, k, t.exact[k]) {
      assert GoodExact(g, s, k, s.exact[k]);
    }
  }

  lemma ClaimIsGood(g: Gateway, s: Stores, i: nat)
    requires Inv(g, s) && Enabled(g, s, ClaimReply(i))
    ensures var key := KeyOf(g, s.calls[i]);
            GoodSemantic(g, s, key, At(s, key).(reply := Some(Cached(s.calls[i])), replyFrom := i))
  {
    var key := KeyOf(g, s.calls[i]);
    assert GoodSemantic(g, s, key, At(s, key));
  }

  lemma FieldsAreGood(g: Gateway, s: Stores, i: nat, vector: Vector)
    requires Inv(g, s) && Enabled(g, s, PutFields(i, vector))
    ensures var key := KeyOf(g, s.calls[i]);
            GoodSemantic(g, s, key,
              At(s, key).(fields := Some(Fields(RequestFilter(g, s.calls[i].request), vector)), fieldsFrom := i))
  {
    var key := KeyOf(g, s.calls[i]);
    assert GoodSemantic(g, s, key, At(s, key));
  }

  lemma StepKeepsInv(g: Gateway, s: Stores, step: Step)
    requires Inv(g, s) && Enabled(g, s, step)
    ensures Inv(g, Apply(g, s, step))
  {
    var t := Apply(g, s, step);
    match step
    case Finish(call) => if StoreAllowed(g, call) { FinishKeepsInv(g, s, call); }
    case SetExact(i) => ExactWriteKeepsInv(g, s, t.exact);
    case ClaimReply(i) => ClaimIsGood(g, s, i); SemanticWriteKeepsInv(g, s, t.semantic);
    case PutFields(i, v) => FieldsAreGood(g, s, i, v); SemanticWriteKeepsInv(g, s, t.semantic);
    case DropExact(_) => ExactWriteKeepsInv(g, s, t.exact);
    case DropSemantic(_) => SemanticWriteKeepsInv(g, s, t.semantic);
  }

  lemma {:induction false} RunKeepsInv(g: Gateway, s: Stores, steps: seq<Step>)
    requires Inv(g, s) && IsRun(g, s, steps)
    ensures Inv(g, Run(g, s, steps))
    decreases |steps|
  {
    if steps != [] {
      StepKeepsInv(g, s, steps[0]);
      RunKeepsInv(g, Apply(g, s, steps[0]), steps[1..]);
    }
  }

  /** What the pipeline stores it will also serve: no lookup has a reason to delete it. */
  lemma StoredRepliesAreServable(g: Gateway, s: Stores, key: string)
    requires Inv(g, s)
    ensures key in s.exact ==> Servable(s.exact[key].reply)
    ensures At(s, key).reply.Some? ==> Servable(At(s, key).reply.value)
  {
    if key in s.exact {
      assert GoodExact(g, s, key, s.exact[key]);
      assert StoreAllowed(g, s.calls[s.exact[key].from]);
    }
    if At(s, key).reply.Some? {
      assert GoodSemantic(g, s, key, s.semantic[key]);
      assert StoreAllowed(g, s.calls[At(s, key).replyFrom]);
    }
  }

  // ---------------------------------------------------------------- being served

  datatype How = Exact | ByText | ByVector(queryVector: Vector, key: string)

  /** The query a search sends, as the search engine reads it: each tag must be one the field is indexed under. */
  predicate Matches(query: string, fields: Fields) {
    ReadFilter(query).Some? && AllMatch(ReadFilter(query).value, fields.tags)
  }

  predicate AllMatch(wanted: seq<Tag>, stored: seq<Tag>) {
    && |wanted| == |stored|
    && forall i :: 0 <= i < |stored| ==>
         wanted[i].field == stored[i].field && TagMatches(stored[i].value, wanted[i].value)
  }

  function KnnQuery(g: Gateway, q: Request, k: string): string {
    BuildKnnQuery(q.modelAlias, q.clientId, g.embeddingModel, g.systemSignature(q.modelAlias),
                  g.hashParams(q.params), k)
  }

  /** The reply a lookup may return to request q, and through which layer. */
  predicate Serves(g: Gateway, s: Stores, q: Request, k: string, r: CachedReply, how: How) {
    && CacheAllowed(g, q) && Servable(r)
    && match how
       case Exact => ExactKey(g, q) in s.exact && s.exact[ExactKey(g, q)].reply == r
       case ByText =>
         && SemanticText(g, q).Some?
         && var e := At(s, EntryKey(g, q, SemanticText(g, q).value));
            e.reply == Some(r) && e.fields.Some?
       case ByVector(v, key) =>
         && SemanticText(g, q).Some?
         && var e := At(s, key);
            e.reply == Some(r) && e.fields.Some? && Matches(KnnQuery(g, q, k), e.fields.value)
            && g.similarity(v, e.fields.value.vector) >= g.minSimilarity
  }

  /** The entry under the request's own text is complete. */
  predicate HasTextHit(g: Gateway, s: Stores, q: Request) {
    && SemanticText(g, q).Some?
    && var e := At(s, EntryKey(g, q, SemanticText(g, q).value));
       e.reply.Some? && e.fields.Some?
  }

  /** A complete entry the search may return, near enough. */
  predicate VectorHit(g: Gateway, s: Stores, q: Request, k: string, v: Vector, key: string) {
    var e := At(s, key);
    && e.reply.Some? && e.fields.Some? && Matches(KnnQuery(g, q, k), e.fields.value)
    && g.similarity(v, e.fields.value.vector) >= g.minSimilarity
  }

  ghost predicate NoVectorHit(g: Gateway, s: Stores, q: Request, k: string, v: Vector, hits: seq<string>) {
    forall key :: key in hits ==> !VectorHit(g, s, q, k, v, key)
  }

  /** The first of the hits that is near enough. */
  ghost predicate BestVectorHit(
    g: Gateway, s: Stores, q: Request, k: string, v: Vector, hits: seq<string>, key: string)
  {
    && VectorHit(g, s, q, k, v, key)
    && exists i :: 0 <= i < |hits| && hits[i] == key && NoVectorHit(g, s, q, k, v, hits[..i])
  }

  /** An entry the search returns without a reply. */
  predicate CorruptHit(g: Gateway, s: Stores, q: Request, k: string, key: string) {
    var e := At(s, key);
    e.reply.None? && e.fields.Some? && Matches(KnnQuery(g, q, k), e.fields.value)
  }

  /** Only semantic entries without a reply have gone. */
  ghost predicate Pruned(s: Stores, t: Stores) {
    && t.exact == s.exact && t.calls == s.calls
    && forall key :: At(t, key) == At(s, key) || (At(s, key).reply.None? && key !in t.semantic)
  }

  ghost predicate NoCorruptHit(g: Gateway, s: Stores, q: Request, k: string, hits: seq<string>) {
    forall key :: key in hits ==> !CorruptHit(g, s, q, k, key)
  }

  function DropIfCorrupt(g: Gateway, s: Stores, q: Request, k: string, key: string): Stores {
    if CorruptHit(g, s, q, k, key) then Forget(s, key) else s
  }

  lemma ForgetPrunes(s: Stores, t: Stores, key: string)
    requires Pruned(s, t) && At(t, key).reply.None?
    ensures Pruned(s, Forget(t, key))
  {
    forall other ensures other == key || At(Forget(t, key), other) == At(t, other) { }
  }

  /** Nothing has changed but corrupt entries among the hits. */
  ghost predicate OnlyCorruptGone(g: Gateway, s: Stores, t: Stores, q: Request, k: string, hits: seq<string>) {
    forall key :: key !in hits || !CorruptHit(g, s, q, k, key) ==> At(t, key) == At(s, key)
  }

  lemma StillOnlyCorruptGone(
    g: Gateway, s: Stores, t: Stores, q: Request, k: string, hits: seq<string>, key: string)
    requires OnlyCorruptGone(g, s, t, q, k, hits) && key in hits
    ensures OnlyCorruptGone(g, s, DropIfCorrupt(g, t, q, k, key), q, k, hits)
  {
    var u := DropIfCorrupt(g, t, q, k, key);
    forall other | other !in hits || !CorruptHit(g, s, q, k, other) ensures At(u, other) == At(s, other) {
      assert At(t, other) == At(s, other);
      assert other != key ==> At(u, other) == At(t, other);
    }
  }

  lemma DropsOneMore(g: Gateway, s: Stores, t: Stores, q: Request, k: string, hits: seq<string>, i: nat)
    requires Inv(g, t) && Pruned(s, t) && i < |hits| && NoCorruptHit(g, t, q, k, hits[..i])
    ensures var u := DropIfCorrupt(g, t, q, k, hits[i]);
            Inv(g, u) && Pruned(s, u) && NoCorruptHit(g, u, q, k, hits[..i + 1])
  {
    var u := DropIfCorrupt(g, t, q, k, hits[i]);
    if CorruptHit(g, t, q, k, hits[i]) {
      SemanticWriteKeepsInv(g, t, u.semantic);
      ForgetPrunes(s, t, hits[i]);
    }
    forall key | key in hits[..i + 1] ensures !CorruptHit(g, u, q, k, key) {
      if key != hits[i] {
        assert key in hits[..i];
        assert At(u, key) == At(t, key);
      }
    }
  }

  /** The search hits whose reply field is missing count as corrupt and are deleted. */
  method DeleteCorrupt(g: Gateway, s: Stores, q: Request, k: string, hits: seq<string>) returns (t: Stores)
    requires Inv(g, s)
    ensures Inv(g, t) && Pruned(s, t) && NoCorruptHit(g, t, q, k, hits)
    ensures OnlyCorruptGone(g, s, t, q, k, hits)
  {
    t := s;
    for i := 0 to |hits|
      invariant Inv(g, t) && Pruned(s, t) && NoCorruptHit(g, t, q, k, hits[..i])
      invariant OnlyCorruptGone(g, s, t, q, k, hits)
    {
      StillOnlyCorruptGone(g, s, t, q, k, hits, hits[i]);
      DropsOneMore(g, s, t, q, k, hits, i);
      t := DropIfCorrupt(g, t, q, k, hits[i]);
    }
    assert hits[..|hits|] == hits;
  }

  /**
    The call's own entry keeps a reply it had and is complete: fields it had too stay with that reply,
    otherwise they are the call's tags and vector. No other entry has changed.
  */
  ghost predicate Upserted(g: Gateway, s: Stores, t: Stores, call: StoreCall, vector: Vector)
    requires SemanticText(g, call.request).Some?
  {
    var e, before := At(t, KeyOf(g, call)), At(s, KeyOf(g, call));
    && e.reply == (if before.reply.Some? then before.reply else Some(Cached(call)))
    && e.fields == (if before.reply.Some? && before.fields.Some? then before.fields
                    else Some(Fields(TagsOf(g, call.request), vector)))
    && forall other :: other != KeyOf(g, call) ==> At(t, other) == At(s, other)
  }

  lemma SameSemanticUpserted(g: Gateway, s: Stores, s': Stores, t: Stores, call: StoreCall, vector: Vector)
    requires s.semantic == s'.semantic && SemanticText(g, call.request).Some? && Upserted(g, s', t, call, vector)
    ensures Upserted(g, s, t, call, vector)
  {
    assert forall key :: At(s, key) == At(s', key);
  }

  /** The pipeline as one request drives it: early returns, then the exact layer, then the semantic one. */
  class ChatCachePipeline {
    const g: Gateway
    var stores: Stores

    constructor (g: Gateway)
      ensures this.g == g && stores == EMPTY
    {
      this.g := g;
      stores := EMPTY;
    }

    /**
      The exact layer, then the entry under the request's own text, then the search. `hits` are the
      keys the search looks at, best first; `queryVector` is None when the embedding was skipped or
      failed. Of what the gateway itself stored, only entries without a reply are ever deleted.
    */
    method GetCachedIfAllowed(q: Request, k: string, queryVector: Option<Vector>, hits: seq<string>)
      returns (r: Option<CachedReply>, how: How)
      requires Inv(g, stores)
      modifies this
      ensures Inv(g, stores) && Pruned(old(stores), stores) && OnlyCorruptGone(g, old(stores), stores, q, k, hits)
      ensures r.Some? ==> Serves(g, stores, q, k, r.value, how)
      ensures q.hasToolDefinitions || q.hasToolCalls || !q.hasGatewayKey || q.clientId == "unknown" ==>
                r.None? && stores == old(stores)
      ensures !g.providerEnabled(q.modelAlias) || (exists i :: 0 <= i < |q.messages| && q.messages[i].role == Tool) ==>
                r.None? && stores == old(stores)
      ensures !g.semanticEnabled || |q.messages| != 1 ==> how == Exact && stores == old(stores)
      ensures |q.messages| == 1 && (q.messages[0].role != User || Trim(q.messages[0].content) == "") ==>
                how == Exact && stores == old(stores)
      ensures CacheAllowed(g, q) && ExactKey(g, q) in stores.exact ==>
                r == Some(stores.exact[ExactKey(g, q)].reply) && how == Exact
      ensures CacheAllowed(g, q) && ExactKey(g, q) !in stores.exact && HasTextHit(g, stores, q) ==>
                r == At(stores, EntryKey(g, q, SemanticText(g, q).value)).reply && how == ByText
      ensures r.None? && CacheAllowed(g, q) && SemanticText(g, q).Some? && queryVector.Some? ==>
                NoVectorHit(g, stores, q, k, queryVector.value, hits)
      ensures how.ByVector? ==> BestVectorHit(g, stores, q, k, how.queryVector, hits, how.key)
    {
      how := Exact;
      SemanticTextExactly(g, q);
      if !CacheAllowed(g, q) { return None, how; }
      var key := ExactKey(g, q);
      if key in stores.exact {
        StoredRepliesAreServable(g, stores, key);
        return Some(stores.exact[key].reply), Exact;
      }
      if SemanticText(g, q).None? { return None, how; }
      var entryKey := EntryKey(g, q, SemanticText(g, q).value);
      if HasTextHit(g, stores, q) {
        StoredRepliesAreServable(g, stores, entryKey);
        return At(stores, entryKey).reply, ByText;
      }
      if queryVector.None? { return None, how; }
      stores := DeleteCorrupt(g, stores, q, k, hits);
      var best := FirstVectorHit(q, k, queryVector.value, hits);
      if best.None? { return None, how; }
      StoredRepliesAreServable(g, stores, best.value);
      return At(stores, best.value).reply, ByVector(queryVector.value, best.value);
    }

    method FirstVectorHit(q: Request, k: string, v: Vector, hits: seq<string>) returns (best: Option<string>)
      ensures best.Some? ==> BestVectorHit(g, stores, q, k, v, hits, best.value)
      ensures best.None? ==> NoVectorHit(g, stores, q, k, v, hits)
    {
      for i := 0 to |hits|
        invariant NoVectorHit(g, stores, q, k, v, hits[..i])
      {
        if VectorHit(g, stores, q, k, v, hits[i]) { return Some(hits[i]); }
        assert hits[..i + 1] == hits[..i] + [hits[i]];
      }
      assert hits[..|hits|] == hits;
      return None;
    }

    /** With nothing running beside it a store is a run of the steps above, and leaves both layers filled. */
    method SetCachedIfAllowed(call: StoreCall, vector: Option<Vector>)
      requires Inv(g, stores)
      modifies this
      ensures Inv(g, stores)
      ensures call.request.hasToolDefinitions || call.request.hasToolCalls ==> stores == old(stores)
      ensures !call.request.hasGatewayKey || call.request.clientId == "unknown" ==> stores == old(stores)
      ensures (exists i :: 0 <= i < |call.request.messages| && call.request.messages[i].role == Tool) ==>
                stores == old(stores)
      ensures !g.providerEnabled(call.request.modelAlias) || call.didFallback ==> stores == old(stores)
      ensures call.response.finishReason != Stop || Trim(call.response.text) == "" ==> stores == old(stores)
      ensures call.response.toolCalls != [] ==> stores == old(stores)
      ensures !StoreAllowed(g, call) ==> stores == old(stores)
      ensures vector.None? || !g.semanticEnabled || |call.request.messages| != 1 ==>
                stores.semantic == old(stores.semantic)
      ensures var m := call.request.messages;
              |m| == 1 && (m[0].role != User || Trim(m[0].content) == "") ==> stores.semantic == old(stores.semantic)
      ensures StoreAllowed(g, call) ==>
                && stores.calls == old(stores.calls) + [call]
                && ExactKey(g, call.request) in stores.exact
                && (ExactKey(g, call.request) !in old(stores.exact) ==>
                      stores.exact[ExactKey(g, call.request)].reply == Cached(call))
                && (forall k :: k in old(stores.exact) ==> k in stores.exact && stores.exact[k] == old(stores.exact)[k])
      ensures StoreAllowed(g, call) && vector.Some? && SemanticText(g, call.request).Some? ==>
                Upserted(g, old(stores), stores, call, vector.value)
    {
      StoreIsRefusedExactly(g, call);
      SemanticTextExactly(g, call.request);
      CacheIsBypassedExactly(g, call.request);
      if !StoreAllowed(g, call) { return; }
      StoreBoth(call, vector);
    }

    method StoreBoth(call: StoreCall, vector: Option<Vector>)
      requires Inv(g, stores) && StoreAllowed(g, call)
      modifies this
      ensures Inv(g, stores) && stores.calls == old(stores.calls) + [call]
      ensures var key, before := ExactKey(g, call.request), old(stores.exact);
              stores.exact ==
                if key in before then before else before[key := ExactEntry(Cached(call), |old(stores.calls)|)]
      ensures vector.None? || SemanticText(g, call.request).None? ==> stores.semantic == old(stores.semantic)
      ensures vector.Some? && SemanticText(g, call.request).Some? ==>
                Upserted(g, old(stores), stores, call, vector.value)
    {
      var n := |stores.calls|;
      StoreExact(call);
      if vector.None? || SemanticText(g, call.request).None? { return; }
      ghost var stored := stores;
      assert stored.calls[n] == call;
      Upsert(n, vector.value);
      SameSemanticUpserted(g, old(stores), stored, stores, call, vector.value);
    }

    /** The exact half of a store: the first writer of a key wins. */
    method StoreExact(call: StoreCall)
      requires Inv(g, stores) && StoreAllowed(g, call)
      modifies this
      ensures Inv(g, stores) && stores.semantic == old(stores.semantic) && stores.calls == old(stores.calls) + [call]
      ensures var key, before := ExactKey(g, call.request), old(stores.exact);
              stores.exact ==
                if key in before then before else before[key := ExactEntry(Cached(call), |old(stores.calls)|)]
    {
      var n := |stores.calls|;
      Do(Finish(call));
      Do(SetExact(n));
    }

    /** The semantic half of a store: claim the reply, then write the fields unless the entry was complete. */
    method Upsert(n: nat, vector: Vector)
      requires Inv(g, stores) && Enabled(g, stores, ClaimReply(n))
      modifies this
      ensures Inv(g, stores) && stores.exact == old(stores.exact) && stores.calls == old(stores.calls)
      ensures Upserted(g, old(stores), stores, stores.calls[n], vector)
      ensures var before := At(old(stores), KeyOf(g, stores.calls[n]));
              before.reply.Some? && before.fields.Some? ==> stores == old(stores)
    {
      var key := KeyOf(g, stores.calls[n]);
      var claimed := At(stores, key).reply.None?;
      Do(ClaimReply(n));
      if claimed || At(stores, key).fields.None? {
        Do(PutFields(n, vector));
      }
    }

    method Do(step: Step)
      requires Inv(g, stores) && Enabled(g, stores, step)
      modifies this
      ensures stores == Apply(g, old(stores), step) && Inv(g, stores)
    {
      StepKeepsInv(g, stores, step);
      stores := Apply(g, stores, step);
    }
  }

  // ---------------------------------------------------------------- provenance

  /**
    Hashes do not collide and are digests, the embedding model's name is neither a digest nor split by
    `|` or as a TAG, and configured aliases have passed their check and are not padded.
  */
  ghost predicate GoodGateway(g: Gateway) {
    && (forall x, y :: g.hashExact(x) == g.hashExact(y) ==> x == y)
    && (forall x, y :: g.hashEntry(x) == g.hashEntry(y) ==> x == y)
    && (forall x, y :: g.hashParams(x) == g.hashParams(y) ==> x == y)
    && (forall x :: IsDigest(g.hashParams(x)))
    && (forall a :: IsDigest(g.systemSignature(a)))
    && GoodModel(g.embeddingModel) && CleanTag(g.embeddingModel)
    && (forall a :: g.providerEnabled(a) ==> IsTagSafeId(a) && CleanTag(a))
  }

  /** What a request puts into its entry's identity beside the client. */
  function PartsOf(g: Gateway, r: Request, text: string): Parts {
    Parts(r.modelAlias, g.systemSignature(r.modelAlias), g.hashParams(r.params), text)
  }

  /** Two requests under one entry key agree on all it stands for, unless one client's name extends the other's. */
  lemma SameEntryKey(g: Gateway, a: Request, ta: string, b: Request, tb: string)
    requires GoodGateway(g) && g.providerEnabled(a.modelAlias) && g.providerEnabled(b.modelAlias)
    requires Apart(g.embeddingModel, a.clientId, b.clientId) && EntryKey(g, a, ta) == EntryKey(g, b, tb)
    ensures SamePartition(a, b) && ta == tb
  {
    IdentityIsInjective(g.embeddingModel, a.clientId, PartsOf(g, a, ta), b.clientId, PartsOf(g, b, tb));
  }

  /** The partition a search selects: same alias and parameters, and a client name the stored one is indexed under. */
  predicate SearchedPartition(stored: Request, q: Request) {
    q.clientId in IndexedTags(stored.clientId) && stored.modelAlias == q.modelAlias && stored.params == q.params
  }

  lemma CleanMatch(stored: string, value: string)
    requires CleanTag(stored)
    ensures TagMatches(stored, value) <==> value == stored
  {
    TagsOfAField(stored);
  }

  /** A filter is five tags, and each must match. */
  lemma {:induction false} FiveTagsMatch(
    m: string, c: string, e: string, s: string, p: string,
    m': string, c': string, e': string, s': string, p': string)
    ensures AllMatch(Filter(m, c, e, s, p), Filter(m', c', e', s', p')) <==>
              TagMatches(m', m) && TagMatches(c', c) && TagMatches(e', e) && TagMatches(s', s) && TagMatches(p', p)
  {
    var wanted, stored := Filter(m, c, e, s, p), Filter(m', c', e', s', p');
    assert wanted[0].value == m && wanted[1].value == c && wanted[2].value == e;
    assert wanted[3].value == s && wanted[4].value == p;
    assert stored[0].value == m' && stored[1].value == c' && stored[2].value == e';
    assert stored[3].value == s' && stored[4].value == p';
  }

  /** A search matches an entry exactly when it selects the partition the entry was stored for. */
  lemma MatchIsSearchedPartition(g: Gateway, q: Request, k: string, a: Request, vector: Vector)
    requires GoodGateway(g) && g.providerEnabled(a.modelAlias)
    ensures Matches(KnnQuery(g, q, k), Fields(RequestFilter(g, a), vector)) <==> SearchedPartition(a, q)
  {
    KnnQueryReadsBack(q.modelAlias, q.clientId, g.embeddingModel, g.systemSignature(q.modelAlias),
                      g.hashParams(q.params), k);
    FiveTagsMatch(
      q.modelAlias, q.clientId, g.embeddingModel, g.systemSignature(q.modelAlias), g.hashParams(q.params),
      a.modelAlias, a.clientId, g.embeddingModel, g.systemSignature(a.modelAlias), g.hashParams(a.params));
    DigestsArePlain(g.systemSignature(a.modelAlias));
    DigestsArePlain(g.hashParams(a.params));
    CleanMatch(a.modelAlias, q.modelAlias);
    CleanMatch(g.embeddingModel, g.embeddingModel);
    CleanMatch(g.systemSignature(a.modelAlias), g.systemSignature(q.modelAlias));
    CleanMatch(g.hashParams(a.params), g.hashParams(q.params));
  }

  /** Same partition of the cache. */
  predicate SamePartition(a: Request, b: Request) {
    a.clientId == b.clientId && a.modelAlias == b.modelAlias && a.params == b.params
  }

  /** With a clean client name the searched partition is the same one. */
  lemma CleanNamesSearchTheirOwn(a: Request, q: Request)
    requires CleanTag(a.clientId)
    ensures SearchedPartition(a, q) <==> SamePartition(a, q)
  {
    CleanMatch(a.clientId, q.clientId);
  }

  /** The single user message of both, trimmed, is the same. */
  predicate SameTrimmedMessage(a: Request, b: Request) {
    && IsSingleTurn(a.messages) && IsSingleTurn(b.messages)
    && Trim(a.messages[0].content) == Trim(b.messages[0].content)
  }

  /** By a request without tools that the primary alias answered, with finish reason stop and text that is not blank. */
  predicate Storable(c: StoreCall) {
    && !c.request.hasToolDefinitions && !c.request.hasToolCalls
    && (forall i :: 0 <= i < |c.request.messages| ==> c.request.messages[i].role != Tool)
    && c.request.hasGatewayKey && c.request.clientId != "unknown"
    && !c.didFallback
    && c.response.finishReason == Stop && Trim(c.response.text) != "" && c.response.toolCalls == []
  }

  /** Store call i accounts for reply r served to q. */
  predicate Accounts(g: Gateway, s: Stores, i: nat, q: Request, r: CachedReply, how: How) {
    && i < |s.calls|
    && var c := s.calls[i];
       && r == Cached(c) && Storable(c)
       && match how
          case Exact => SamePartition(c.request, q) && c.request.messages == q.messages
          case ByText => SamePartition(c.request, q) && SameTrimmedMessage(c.request, q)
          case ByVector(v, key) =>
            && SearchedPartition(c.request, q)
            && IsSingleTurn(c.request.messages) && IsSingleTurn(q.messages)
            && At(s, key).fields.Some?
            && g.similarity(v, At(s, key).fields.value.vector) >= g.minSimilarity
            && At(s, key).fieldsFrom < |s.calls|
            && SameTrimmedMessage(s.calls[At(s, key).fieldsFrom].request, c.request)
  }

  /** No two clients that stored have names one of which extends the other. */
  ghost predicate StoredApart(g: Gateway, s: Stores) {
    forall i, j :: 0 <= i < |s.calls| && 0 <= j < |s.calls| ==>
      Apart(g.embeddingModel, s.calls[i].request.clientId, s.calls[j].request.clientId)
  }

  ghost predicate AskerApart(g: Gateway, s: Stores, q: Request) {
    forall i :: 0 <= i < |s.calls| ==> Apart(g.embeddingModel, s.calls[i].request.clientId, q.clientId)
  }

  lemma ExactHitIsAccounted(g: Gateway, s: Stores, q: Request, k: string, r: CachedReply)
    requires Inv(g, s) && GoodGateway(g) && Serves(g, s, q, k, r, Exact)
    ensures Accounts(g, s, s.exact[ExactKey(g, q)].from, q, r, Exact)
  {
    var e := s.exact[ExactKey(g, q)];
    assert GoodExact(g, s, ExactKey(g, q), e);
    assert StoreAllowed(g, s.calls[e.from]);
    SameExactKey(g, s.calls[e.from].request, q);
  }

  /** Equal exact keys mean equal client, alias, messages and parameters. */
  lemma SameExactKey(g: Gateway, a: Request, b: Request)
    requires GoodGateway(g) && ExactKey(g, a) == ExactKey(g, b)
    ensures SamePartition(a, b) && a.messages == b.messages
  {
    var x := ExactPayload(a.modelAlias, a.clientId, a.messages, g.systemSignature(a.modelAlias), a.params);
    var y := ExactPayload(b.modelAlias, b.clientId, b.messages, g.systemSignature(b.modelAlias), b.params);
    assert g.hashExact(x) == g.hashExact(y);
    assert x == y;
  }

  lemma SameTextIsSameMessage(g: Gateway, a: Request, b: Request)
    requires SemanticText(g, a).Some? && SemanticText(g, a) == SemanticText(g, b)
    ensures SameTrimmedMessage(a, b)
  {
    SingleTurnText(a.messages);
    SingleTurnText(b.messages);
  }

  lemma TextHitIsAccounted(g: Gateway, s: Stores, q: Request, k: string, r: CachedReply)
    requires Inv(g, s) && GoodGateway(g) && AskerApart(g, s, q) && Serves(g, s, q, k, r, ByText)
    ensures Accounts(g, s, At(s, EntryKey(g, q, SemanticText(g, q).value)).replyFrom, q, r, ByText)
  {
    var key := EntryKey(g, q, SemanticText(g, q).value);
    var e := At(s, key);
    assert GoodSemantic(g, s, key, e);
    var i := e.replyFrom;
    assert StoreAllowed(g, s.calls[i]);
    var a := s.calls[i].request;
    assert Apart(g.embeddingModel, a.clientId, q.clientId);
    SameEntryKey(g, a, SemanticText(g, a).value, q, SemanticText(g, q).value);
    SameTextIsSameMessage(g, a, q);
  }

  lemma VectorHitIsAccounted(g: Gateway, s: Stores, q: Request, k: string, r: CachedReply, v: Vector, key: string)
    requires Inv(g, s) && GoodGateway(g) && StoredApart(g, s) && Serves(g, s, q, k, r, ByVector(v, key))
    ensures Accounts(g, s, At(s, key).replyFrom, q, r, ByVector(v, key))
  {
    var e := At(s, key);
    assert GoodSemantic(g, s, key, e);
    var i, j := e.replyFrom, e.fieldsFrom;
    assert StoreAllowed(g, s.calls[i]) && StoreAllowed(g, s.calls[j]);
    var a, b := s.calls[i].request, s.calls[j].request;
    assert Apart(g.embeddingModel, a.clientId, b.clientId);
    SameEntryKey(g, a, SemanticText(g, a).value, b, SemanticText(g, b).value);
    SameTextIsSameMessage(g, b, a);
    assert e.fields.value == Fields(RequestFilter(g, b), e.fields.value.vector);
    MatchIsSearchedPartition(g, q, k, b, e.fields.value.vector);
  }

  /**
    Provenance, over every run of the stores: a reply served to a request was stored for the same
    alias and parameters, by a request without tools that the primary alias answered with finish
    reason stop and text that is not blank. An exact hit was stored for the same client with equal
    messages, a text hit for the same client with the same trimmed single user message; a vector hit
    was stored for a client whose name is indexed under the asker's, at or above the threshold,
    measured against a vector stored for the very message the reply answers.
  */
  lemma ServedRepliesAreAccounted(g: Gateway, steps: seq<Step>, q: Request, k: string, r: CachedReply, how: How)
    requires IsRun(g, EMPTY, steps) && GoodGateway(g)
    requires StoredApart(g, Run(g, EMPTY, steps)) && AskerApart(g, Run(g, EMPTY, steps), q)
    requires Serves(g, Run(g, EMPTY, steps), q, k, r, how)
    ensures exists i: nat :: Accounts(g, Run(g, EMPTY, steps), i, q, r, how)
  {
    RunKeepsInv(g, EMPTY, steps);
    var s := Run(g, EMPTY, steps);
    match how
    case Exact => ExactHitIsAccounted(g, s, q, k, r);
    case ByText => TextHitIsAccounted(g, s, q, k, r);
    case ByVector(v, key) => VectorHitIsAccounted(g, s, q, k, r, v, key);
  }

  /** Store call i accounts for the reply, and was made for the asker's own client. */
  predicate AccountsWithin(g: Gateway, s: Stores, i: nat, q: Request, r: CachedReply, how: How) {
    Accounts(g, s, i, q, r, how) && SamePartition(s.calls[i].request, q)
  }

  /** With clean client names no layer serves one client's reply to another. */
  lemma ServedWithinOneClient(g: Gateway, steps: seq<Step>, q: Request, k: string, r: CachedReply, how: How)
    requires IsRun(g, EMPTY, steps) && GoodGateway(g)
    requires StoredApart(g, Run(g, EMPTY, steps)) && AskerApart(g, Run(g, EMPTY, steps), q)
    requires var calls := Run(g, EMPTY, steps).calls;
             forall i :: 0 <= i < |calls| ==> CleanTag(calls[i].request.clientId)
    requires Serves(g, Run(g, EMPTY, steps), q, k, r, how)
    ensures exists i: nat :: AccountsWithin(g, Run(g, EMPTY, steps), i, q, r, how)
  {
    ServedRepliesAreAccounted(g, steps, q, k, r, how);
    var s := Run(g, EMPTY, steps);
    var i: nat :| Accounts(g, s, i, q, r, how);
    CleanNamesSearchTheirOwn(s.calls[i].request, q);
    assert AccountsWithin(g, s, i, q, r, how);
  }

  /** Nothing cut short, filtered or blank is ever served, from whatever the stores hold. */
  lemma OnlyWholeRepliesAreServed(g: Gateway, s: Stores, q: Request, k: string, r: CachedReply, how: How)
    requires Serves(g, s, q, k, r, how)
    ensures r.finishReason == Stop && Trim(r.text) != ""
  {
  }

  /** No run serves a request that carries tools, has no key or client, or whose provider is off. */
  lemma BypassingRequestsAreNeverServed(g: Gateway, steps: seq<Step>, q: Request, k: string, r: CachedReply, how: How)
    requires IsRun(g, EMPTY, steps)
    requires || q.hasToolDefinitions || q.hasToolCalls || !q.hasGatewayKey || q.clientId == "unknown"
             || !g.providerEnabled(q.modelAlias)
             || exists i :: 0 <= i < |q.messages| && q.messages[i].role == Tool
    ensures !Serves(g, Run(g, EMPTY, steps), q, k, r, how)
  {
    CacheIsBypassedExactly(g, q);
  }

  /**
    Every other request is: whatever ran before, an answer that may be stored, under a key that is
    free, is served to the next request of the same client, alias, messages and parameters.
  */
  lemma FreshStoreIsServed(g: Gateway, s: Stores, call: StoreCall, q: Request, k: string)
    requires ExactKey(g, call.request) !in s.exact
    requires !call.didFallback && call.response.finishReason == Stop
    requires Trim(call.response.text) != "" && call.response.toolCalls == []
    requires call.request.clientId == q.clientId && call.request.modelAlias == q.modelAlias
    requires call.request.messages == q.messages && call.request.params == q.params
    requires !call.request.hasToolDefinitions && !call.request.hasToolCalls && call.request.hasGatewayKey
    requires !q.hasToolDefinitions && !q.hasToolCalls && q.hasGatewayKey
    requires q.clientId != "unknown" && g.providerEnabled(q.modelAlias)
    requires forall i :: 0 <= i < |q.messages| ==> q.messages[i].role != Tool
    ensures var steps := [Finish(call), SetExact(|s.calls|)];
            && IsRun(g, s, steps)
            && Serves(g, Run(g, s, steps), q, k, Cached(call), Exact)
  {
    CacheIsBypassedExactly(g, q);
    CacheIsBypassedExactly(g, call.request);
    StoreIsRefusedExactly(g, call);
    var s1 := Apply(g, s, Finish(call));
    var s2 := Apply(g, s1, SetExact(|s.calls|));
    assert s1.calls[|s.calls|] == call;
    RunFirst(g, s1, SetExact(|s.calls|), []);
    RunFirst(g, s, Finish(call), [SetExact(|s.calls|)]);
  }

  /** Changed prompts miss: requests share an exact key or an entry key only under the same prompts for their alias. */
  lemma KeysSeparatePrompts(g: Gateway, prompts: string -> string, a: Request, ta: string, b: Request, tb: string)
    requires GoodGateway(g) && g.providerEnabled(a.modelAlias) && g.providerEnabled(b.modelAlias)
    requires IsDigest(prompts(b.modelAlias)) && Apart(g.embeddingModel, a.clientId, b.clientId)
    requires var h := g.(systemSignature := prompts);
             ExactKey(g, a) == ExactKey(h, b) || EntryKey(g, a, ta) == EntryKey(h, b, tb)
    ensures a.modelAlias == b.modelAlias && g.systemSignature(a.modelAlias) == prompts(b.modelAlias)
  {
    var h := g.(systemSignature := prompts);
    if ExactKey(g, a) == ExactKey(h, b) {
      var x := ExactPayload(a.modelAlias, a.clientId, a.messages, g.systemSignature(a.modelAlias), a.params);
      var y := ExactPayload(b.modelAlias, b.clientId, b.messages, prompts(b.modelAlias), b.params);
      assert g.hashExact(x) == g.hashExact(y);
      assert x == y;
    } else {
      IdentityIsInjective(g.embeddingModel, a.clientId, PartsOf(g, a, ta), b.clientId, PartsOf(h, b, tb));
    }
  }

  // ---------------------------------------------------------------- when names do mix clients

  /** One store that reaches the semantic layer, and nothing else. */
  function StoreOnce(call: StoreCall, vector: Vector): seq<Step> { [Finish(call), ClaimReply(0), PutFields(0, vector)] }

  function AfterStoreOnce(g: Gateway, call: StoreCall, vector: Vector): Stores
    requires SemanticText(g, call.request).Some?
  {
    var fields := Fields(RequestFilter(g, call.request), vector);
    Stores(map[], map[KeyOf(g, call) := SemanticEntry(Some(Cached(call)), 0, Some(fields), 0)], [call])
  }

  lemma StoreOnceRuns(g: Gateway, call: StoreCall, vector: Vector)
    requires StoreAllowed(g, call) && SemanticText(g, call.request).Some?
    ensures IsRun(g, EMPTY, StoreOnce(call, vector))
    ensures Run(g, EMPTY, StoreOnce(call, vector)) == AfterStoreOnce(g, call, vector)
  {
    var steps := StoreOnce(call, vector);
    var s1 := Apply(g, EMPTY, steps[0]);
    assert s1 == Stores(map[], map[], [call]);
    var s2 := Apply(g, s1, steps[1]);
    var s3 := Apply(g, s2, steps[2]);
    assert s3 == AfterStoreOnce(g, call, vector);
    RunFirst(g, s2, PutFields(0, vector), []);
    RunFirst(g, s1, ClaimReply(0), [PutFields(0, vector)]);
    RunFirst(g, EMPTY, Finish(call), [ClaimReply(0), PutFields(0, vector)]);
  }

  lemma RunFirst(g: Gateway, s: Stores, step: Step, rest: seq<Step>)
    requires Enabled(g, s, step) && IsRun(g, Apply(g, s, step), rest)
    ensures IsRun(g, s, [step] + rest) && Run(g, s, [step] + rest) == Run(g, Apply(g, s, step), rest)
  {
    var steps := [step] + rest;
    assert steps[0] == step && steps[1..] == rest;
  }

  /**
    Which clients a search mixes, exactly: after one store for client c the reply is served by vector
    to client d if and only if d is one of the tags c's name is indexed under, alias and parameters
    agree and the vectors are near enough. When d is not c, no store of d's own accounts for it.
  */
  lemma {:induction false} VectorHitCrossesExactlyToIndexedTags(
    g: Gateway, call: StoreCall, vector: Vector, q: Request, k: string, asked: Vector)
    requires GoodGateway(g) && StoreAllowed(g, call) && SemanticText(g, call.request).Some?
    requires CacheAllowed(g, q) && SemanticText(g, q).Some?
    ensures IsRun(g, EMPTY, StoreOnce(call, vector))
    ensures var s, how := Run(g, EMPTY, StoreOnce(call, vector)), ByVector(asked, KeyOf(g, call));
            && (Serves(g, s, q, k, Cached(call), how) <==>
                  SearchedPartition(call.request, q) && g.similarity(asked, vector) >= g.minSimilarity)
            && (q.clientId != call.request.clientId ==>
                  forall i: nat, r :: !AccountsWithin(g, s, i, q, r, how))
  {
    StoreOnceRuns(g, call, vector);
    MatchIsSearchedPartition(g, q, k, call.request, vector);
    assert Servable(Cached(call));
  }

  /** The same for text: the reply is served to exactly the requests with the stored one's identity. */
  lemma {:induction false} TextHitCrossesExactlyWhenIdentitiesMeet(
    g: Gateway, call: StoreCall, vector: Vector, q: Request, k: string)
    requires GoodGateway(g) && StoreAllowed(g, call) && SemanticText(g, call.request).Some?
    requires CacheAllowed(g, q) && SemanticText(g, q).Some?
    ensures IsRun(g, EMPTY, StoreOnce(call, vector))
    ensures var s, c := Run(g, EMPTY, StoreOnce(call, vector)), call.request;
            && (Serves(g, s, q, k, Cached(call), ByText) <==>
                  Meet(g.embeddingModel, c.clientId, PartsOf(g, c, SemanticText(g, c).value),
                       q.clientId, PartsOf(g, q, SemanticText(g, q).value)))
            && (q.clientId != c.clientId ==> forall i: nat, r :: !AccountsWithin(g, s, i, q, r, ByText))
  {
    StoreOnceRuns(g, call, vector);
    assert Servable(Cached(call));
    var c := call.request;
    var x, y := PartsOf(g, c, SemanticText(g, c).value), PartsOf(g, q, SemanticText(g, q).value);
    assert GoodParts(x) && GoodParts(y);
    assert KeyOf(g, call) == g.hashEntry(IdentityOf(g.embeddingModel, c.clientId, x));
    assert EntryKey(g, q, SemanticText(g, q).value) == g.hashEntry(IdentityOf(g.embeddingModel, q.clientId, y));
  }

  /** Two names a client may be given that mix: padded with a space, and with another name behind a comma. */
  lemma PaddedAndListedNamesMix(name: string, more: string)
    requires CleanTag(name)
    ensures name in IndexedTags(" " + name) && " " + name != name
    ensures name in IndexedTags(name + ("," + more)) && name + ("," + more) != name
  {
    TrimKeepsExactlyTheTrimmed(IsTagSpace, name);
    var padded := " " + name;
    assert padded[1..] == name;
    assert TrimTag(padded) == TrimTag(name) == name;
    TagsOfAField(padded);
    PiecesAtComma(name, more);
    assert name in Pieces(name + ("," + more));
  }
}

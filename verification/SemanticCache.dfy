/**
  The semantic cache service: a lookup that tries the text identity, then one embedding and a
  nearest-neighbour search, and a store that reuses what the lookup learned. What matters is
  how the two drive the circuit breaker and how often they call the embedding backend.
*/
module SemanticCache {
  import opened Wrappers
  import opened LastUserMessage
  import opened CircuitBreaker

  type Vector = seq<int>
  type Reply = string

  datatype Settings = Settings(enabled: bool, minSimilarity: real)

  datatype Hit = Hit(similarity: real, reply: Reply)

  datatype LookupResult = LookupResult(reply: Option<Reply>, vector: Option<Vector>, embedAttempted: bool)

  datatype EmbedState = EmbedState(vector: Option<Vector>, embedAttempted: bool)

  const NOT_ATTEMPTED := LookupResult(None, None, false)

  /** What the collaborators answer during one request, and when. */
  datatype Answers = Answers(
    identityReply: Option<Reply>,  // the text-identity read
    askedAt: int,
    embedding: Option<Vector>,     // None: the embedding call throws
    reportedAt: int,
    hits: Option<seq<Hit>>)        // None: the search throws

  /** The first hit, in the order the search returns them, that reaches the threshold. */
  function FirstAbove(hits: seq<Hit>, threshold: real): Option<Hit> {
    if hits == [] then None
    else if hits[0].similarity >= threshold then Some(hits[0])
    else FirstAbove(hits[1..], threshold)
  }

  /** Search results come sorted by distance, so the first hit above the threshold is the best of all hits. */
  lemma {:induction false} FirstAboveIsBest(hits: seq<Hit>, threshold: real)
    requires forall i, j :: 0 <= i < j < |hits| ==> hits[i].similarity >= hits[j].similarity
    ensures FirstAbove(hits, threshold).None? <==> forall h :: h in hits ==> h.similarity < threshold
    ensures FirstAbove(hits, threshold).Some? ==>
              var best := FirstAbove(hits, threshold).value;
              && best in hits && best.similarity >= threshold
              && forall h :: h in hits ==> h.similarity <= best.similarity
    decreases |hits|
  {
    if hits != [] {
      FirstAboveIsBest(hits[1..], threshold);
      assert hits == [hits[0]] + hits[1..];
    }
  }

  /** The reply of the best hit that reaches the threshold, if one does. */
  function BestReply(hits: seq<Hit>, threshold: real): Option<Reply> {
    var best := FirstAbove(hits, threshold);
    if best.Some? then Some(best.value.reply) else None
  }

  /** The breaker's system after one call asked for and, if it is let in, reported. */
  function AfterEmbed(c: Config, s: System, a: Answers): System {
    var asked := Apply(c, s, Ask(a.askedAt));
    if asked.outstanding == s.outstanding then asked
    else Apply(c, asked, if a.embedding.Some? then Succeed(a.reportedAt) else Fail(a.reportedAt))
  }

  /** Whether the call is let in: it becomes outstanding. */
  predicate LetsIn(c: Config, s: System, a: Answers) { Apply(c, s, Ask(a.askedAt)).outstanding == s.outstanding + 1 }

  function EmbedEvents(c: Config, s: System, a: Answers): seq<Event> {
    if !LetsIn(c, s, a) then [Ask(a.askedAt)]
    else if a.embedding.Some? then [Ask(a.askedAt), Succeed(a.reportedAt)]
    else [Ask(a.askedAt), Fail(a.reportedAt)]
  }

  /** An embedding is a run of the breaker's machine that leaves as many calls outstanding as it found. */
  lemma EmbedIsARun(c: Config, s: System, a: Answers)
    ensures IsRun(c, s, EmbedEvents(c, s, a)) && Run(c, s, EmbedEvents(c, s, a)) == AfterEmbed(c, s, a)
    ensures AfterEmbed(c, s, a).outstanding == s.outstanding
    ensures AfterEmbed(c, s, a).reports
         == s.reports + if LetsIn(c, s, a) then [a.embedding.Some?] else []
  {
    var events := EmbedEvents(c, s, a);
    var asked := Apply(c, s, events[0]);
    if LetsIn(c, s, a) {
      var rest := events[1..];
      assert rest[1..] == [];
      assert Run(c, asked, rest) == Apply(c, asked, rest[0]);
    } else {
      assert events[1..] == [];
    }
  }

  /** Requests one after the other, each asking once. */
  function AfterRequests(c: Config, s: System, requests: seq<Answers>): System
    decreases |requests|
  {
    if requests == [] then s else AfterRequests(c, AfterEmbed(c, s, requests[0]), requests[1..])
  }

  lemma {:induction false} RequestsCompose(c: Config, s: System, xs: seq<Answers>, ys: seq<Answers>)
    ensures AfterRequests(c, s, xs + ys) == AfterRequests(c, AfterRequests(c, s, xs), ys)
    decreases |xs|
  {
    if xs == [] {
      assert xs + ys == ys;
    } else {
      assert (xs + ys)[1..] == xs[1..] + ys;
      RequestsCompose(c, AfterEmbed(c, s, xs[0]), xs[1..], ys);
    }
  }

  /** Failures short of the threshold let every request through. */
  lemma {:induction false} FailingRequestsOpen(c: Config, s: System, failing: seq<Answers>)
    requires forall i :: 0 <= i < |failing| ==> failing[i].embedding.None?
    requires failing != [] && s.breaker.failures + |failing| == c.openAfter
    ensures var t := AfterRequests(c, s, failing);
            && t.breaker == Breaker(c.openAfter, failing[|failing| - 1].reportedAt, false)
            && |t.reports| == |s.reports| + |failing|
    decreases |failing|
  {
    if |failing| > 1 {
      FailingRequestsOpen(c, AfterEmbed(c, s, failing[0]), failing[1..]);
    } else {
      assert failing[1..] == [];
    }
  }

  lemma {:induction false} OpenBreakerAsksNothing(c: Config, s: System, requests: seq<Answers>)
    requires s.breaker.failures >= c.openAfter
    requires forall i :: 0 <= i < |requests| ==> requests[i].askedAt < s.breaker.openedAtMs + c.cooldownMs
    ensures AfterRequests(c, s, requests).reports == s.reports
    decreases |requests|
  {
    if requests != [] {
      OpenBreakerAsksNothing(c, AfterEmbed(c, s, requests[0]), requests[1..]);
    }
  }

  /**
    A dead backend is left alone: it is called for the first `openAfter` requests, which fail, and for
    none of the requests within the cooldown after the last of those, however many there are.
  */
  lemma DeadBackendIsLeftAlone(c: Config, failing: seq<Answers>, later: seq<Answers>)
    requires c.openAfter >= 1 && |failing| == c.openAfter
    requires forall i :: 0 <= i < |failing| ==> failing[i].embedding.None?
    requires forall i :: 0 <= i < |later| ==> later[i].askedAt < failing[|failing| - 1].reportedAt + c.cooldownMs
    ensures |AfterRequests(c, INITIAL, failing).reports| == c.openAfter
    ensures |AfterRequests(c, INITIAL, failing + later).reports| == c.openAfter
  {
    FailingRequestsOpen(c, INITIAL, failing);
    RequestsCompose(c, INITIAL, failing, later);
    OpenBreakerAsksNothing(c, AfterRequests(c, INITIAL, failing), later);
  }

  class SemanticCacheService {
    const circuit: EmbeddingCircuitBreaker
    /** Calls made to the embedding backend. */
    var embeds: nat

    constructor (config: Config)
      ensures Valid() && fresh(circuit) && circuit.config == config && circuit.system == INITIAL
      ensures embeds == 0
    {
      circuit := new EmbeddingCircuitBreaker(config);
      embeds := 0;
    }

    ghost predicate Valid()
      reads this, circuit
    {
      circuit.Valid()
    }

    /** Ask the breaker, embed, and report the outcome exactly once. */
    method EmbedThroughCircuit(a: Answers) returns (attempted: bool, vector: Option<Vector>)
      requires Valid()
      modifies this, circuit
      ensures Valid() && circuit.system == AfterEmbed(circuit.config, old(circuit.system), a)
      ensures attempted <==> LetsIn(circuit.config, old(circuit.system), a)
      ensures embeds == old(embeds) + (if attempted then 1 else 0)
      ensures vector == if attempted then a.embedding else None
    {
      var skip := circuit.ShouldSkipEmbed(a.askedAt);
      if skip { return false, None; }
      embeds := embeds + 1;
      if a.embedding.Some? {
        circuit.RecordEmbedSuccess(a.reportedAt);
      } else {
        circuit.RecordEmbedFailure(a.reportedAt);
      }
      return true, a.embedding;
    }

    method Lookup(cfg: Settings, messages: seq<Message>, a: Answers) returns (r: LookupResult)
      requires Valid()
      modifies this, circuit
      ensures Valid()
      ensures !cfg.enabled || |messages| != 1 || messages[0].role != User || Trim(messages[0].content) == "" ==>
                r == LookupResult(None, None, false) && Unchanged(old(circuit.system), old(embeds))
      ensures cfg.enabled && |messages| == 1 && messages[0].role == User && Trim(messages[0].content) != "" ==>
                if a.identityReply.Some?
                then r == LookupResult(a.identityReply, None, false) && Unchanged(old(circuit.system), old(embeds))
                else
                  && circuit.system == AfterEmbed(circuit.config, old(circuit.system), a)
                  && r.embedAttempted == LetsIn(circuit.config, old(circuit.system), a)
                  && embeds == old(embeds) + (if r.embedAttempted then 1 else 0)
                  && r.vector == (if r.embedAttempted then a.embedding else None)
                  && r.reply ==
                       if r.vector.Some? && a.hits.Some? then BestReply(a.hits.value, cfg.minSimilarity) else None
    {
      if !cfg.enabled { return NOT_ATTEMPTED; }
      var single := IsSingleTurnUserRequest(messages);
      if !single { return NOT_ATTEMPTED; }
      SingleTurnText(messages);
      var text := LastUserMessageText(messages);
      if text.None? { return NOT_ATTEMPTED; }
      if a.identityReply.Some? { return LookupResult(a.identityReply, None, false); }
      var attempted, vector := EmbedThroughCircuit(a);
      if !attempted { return NOT_ATTEMPTED; }
      if vector.None? { return LookupResult(None, None, true); }
      if a.hits.None? { return LookupResult(None, vector, true); }
      var best := FirstAbove(a.hits.value, cfg.minSimilarity);
      if best.None? { return LookupResult(None, vector, true); }
      return LookupResult(Some(best.value.reply), vector, true);
    }

    /** Neither the breaker nor the backend has been asked. */
    ghost predicate Unchanged(system: System, embedded: nat)
      reads this, circuit
    {
      circuit.system == system && embeds == embedded
    }

    /** `upserted` is the vector handed to the store, None when nothing is written. */
    method StoreReply(cfg: Settings, messages: seq<Message>, state: EmbedState, a: Answers)
      returns (upserted: Option<Vector>)
      requires Valid()
      modifies this, circuit
      ensures Valid()
      ensures !cfg.enabled || |messages| != 1 || messages[0].role != User || Trim(messages[0].content) == "" ==>
                upserted.None? && Unchanged(old(circuit.system), old(embeds))
      ensures cfg.enabled && |messages| == 1 && messages[0].role == User && Trim(messages[0].content) != "" ==>
                if state.vector.Some? || state.embedAttempted
                then upserted == state.vector && Unchanged(old(circuit.system), old(embeds))
                else
                  var attempted := LetsIn(circuit.config, old(circuit.system), a);
                  && circuit.system == AfterEmbed(circuit.config, old(circuit.system), a)
                  && embeds == old(embeds) + (if attempted then 1 else 0)
                  && upserted == if attempted then a.embedding else None
    {
      if !cfg.enabled { return None; }
      var single := IsSingleTurnUserRequest(messages);
      if !single { return None; }
      SingleTurnText(messages);
      var text := LastUserMessageText(messages);
      if text.None? { return None; }
      var vector := state.vector;
      if vector.None? {
        if state.embedAttempted { return None; }
        var attempted, embedded := EmbedThroughCircuit(a);
        if !attempted { return None; }
        if embedded.None? { return None; }
        vector := embedded;
      }
      return vector;
    }

    /**
      One chat request that misses: lookup, provider call, store. The state the lookup hands to the
      store keeps the two together at one embedding at most, and a vector it computed is the one stored.
      The breaker sees the lookup's call, and the store's only when the lookup's was not let in.
    */
    method MissThenStore(cfg: Settings, messages: seq<Message>, atLookup: Answers, atStore: Answers)
      returns (r: LookupResult, upserted: Option<Vector>)
      requires Valid()
      modifies this, circuit
      ensures Valid() && embeds <= old(embeds) + 1
      ensures r.reply.None? && r.vector.Some? ==> upserted == r.vector && embeds == old(embeds) + 1
      ensures r.reply.Some? ==> upserted.None?
      ensures r.embedAttempted && r.vector.None? ==> upserted.None?
      ensures !cfg.enabled || |messages| != 1 || messages[0].role != User || Trim(messages[0].content) == "" ==>
                upserted.None? && Unchanged(old(circuit.system), old(embeds))
      ensures cfg.enabled && |messages| == 1 && messages[0].role == User && Trim(messages[0].content) != "" ==>
                var looked := AfterEmbed(circuit.config, old(circuit.system), atLookup);
                circuit.system ==
                  if atLookup.identityReply.Some? then old(circuit.system)
                  else if r.embedAttempted then looked
                  else AfterEmbed(circuit.config, looked, atStore)
    {
      r := Lookup(cfg, messages, atLookup);
      upserted := None;
      if r.reply.None? {
        upserted := StoreReply(cfg, messages, EmbedState(r.vector, r.embedAttempted), atStore);
      }
    }
  }
}

/**
  What a coalesced chat caller is answered with. Requests that may be cached run their miss path
  through the in-process coalescing under their exact cache key; the answer is built once, from the
  request of the caller that started the work, and every caller that joined it receives that answer.
*/
module CoalescedChat {
  import opened ChatTypes
  import opened Singleflight
  import opened StreamReplay
  import CacheProvenance

  /** A chat request on its way, with the ids that are no part of its cache key. */
  datatype Caller = Caller(request: CacheProvenance.Request, requestId: string, conversationId: string)

  /** What the executor came back with; an empty `fallbackAlias` means that the primary alias answered. */
  datatype Run = Run(
    final: ProviderFinal, text: string, id: string, provider: string, fallbackAlias: string,
    warningsFor: string -> seq<Warning>)  // of the call parameters

  datatype Answer = Answer(response: ChatResponse, requestId: string, conversationId: string)

  function BuildAnswer(x: Caller, run: Run): Answer {
    Answer(BuildChatResponse(run.final, run.text, run.id, run.provider, x.request.modelAlias, run.fallbackAlias,
                             run.warningsFor(x.request.params)),
           x.requestId, x.conversationId)
  }

  function KeyOf(g: CacheProvenance.Gateway, who: CallerId -> Caller): CallerId -> Key {
    (c: CallerId) => CacheProvenance.ExactKey(g, who(c).request)
  }

  /**
    In every interleaving, a caller waits on work started for a request of the same client, alias,
    parameters and messages. Its answer is the one that would have been built for it from the same
    executor run except for two fields: it carries the request and conversation ids of the caller
    that started the work, and is its own exactly when those agree. It may be a fallback's answer.
  */
  lemma CoalescedAnswerIsOwnUpToIds(
    g: CacheProvenance.Gateway, who: CallerId -> Caller, steps: seq<Step>, c: CallerId, run: Run)
    requires CacheProvenance.GoodGateway(g)
    requires IsRun(INITIAL, steps) && CallsTheirKey(steps, KeyOf(g, who))
    requires c in Singleflight.Run(INITIAL, steps).joined
    ensures var s := Singleflight.Run(INITIAL, steps);
            s.joined[c] < |s.works| && s.works[s.joined[c]].starter in s.joined
    ensures var s := Singleflight.Run(INITIAL, steps);
            var mine, first := who(c), who(s.works[s.joined[c]].starter);
            && CacheProvenance.SamePartition(mine.request, first.request)
            && mine.request.messages == first.request.messages
            && BuildAnswer(first, run).response == BuildAnswer(mine, run).response
            && BuildAnswer(first, run).requestId == first.requestId
            && BuildAnswer(first, run).conversationId == first.conversationId
            && BuildAnswer(first, run).response.model == mine.request.modelAlias
            && BuildAnswer(first, run).response.effectiveModelAlias == run.fallbackAlias
            && (BuildAnswer(first, run) == BuildAnswer(mine, run) <==>
                  mine.requestId == first.requestId && mine.conversationId == first.conversationId)
  {
    RunKeepsKeyed(INITIAL, steps, KeyOf(g, who));
    var s := Singleflight.Run(INITIAL, steps);
    var w := s.joined[c];
    assert StartedByItsCaller(s, w, KeyOf(g, who));
    CacheProvenance.SameExactKey(g, who(c).request, who(s.works[w].starter).request);
  }
}

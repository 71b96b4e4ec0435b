/**
  The semantic-cache write protocol over one Redis hash: an HSETNX claim of `reply`, then a
  MULTI of HSET and EXPIRE, with a probe-and-heal path for writers that lose the claim.
  Every Redis command is one atomic step; any number of writers, crashes, expiries and
  deletes interleave.
*/
module SemanticUpsert {
  import opened Wrappers

  type Reply = string
  type Blob = seq<int>
  type WriterId = nat

  /** The hash under one entry key. A key with no field does not exist. */
  datatype Entry = Entry(reply: Option<Reply>, vector: Option<Blob>, hasTtl: bool)

  const NO_ENTRY := Entry(None, None, false)

  predicate Absent(e: Entry) { e == NO_ENTRY }
  predicate ReplyOnly(e: Entry) { e.reply.Some? && e.vector.None? && !e.hasTtl }
  predicate VectorOnly(e: Entry) { e.reply.None? && e.vector.Some? && e.hasTtl }
  predicate Complete(e: Entry) { e.reply.Some? && e.vector.Some? && e.hasTtl }

  /** The only four shapes an entry may take; a vector never lives without a TTL. */
  predicate WellShaped(e: Entry) { Absent(e) || ReplyOnly(e) || VectorOnly(e) || Complete(e) }

  // ---------------------------------------------------------------- Redis commands

  function HSetNxReply(e: Entry, reply: Reply): Entry {
    if e.reply.None? then e.(reply := Some(reply)) else e
  }

  function MultiHSetExpire(e: Entry, vector: Blob): Entry {
    e.(vector := Some(vector), hasTtl := true)
  }

  /** TTL: -2 for a missing key, -1 for a key that never expires, otherwise seconds left. */
  function Ttl(e: Entry, secondsLeft: nat): int {
    if Absent(e) then -2 else if !e.hasTtl then -1 else secondsLeft
  }

  /** The reply a text-identity lookup serves: HMGET of reply and vector in one command. */
  function GetByTextIdentity(e: Entry, servable: Reply -> bool): Option<Reply> {
    if e.reply.Some? && e.reply.value != "" && e.vector.Some? && e.vector.value != [] && servable(e.reply.value)
    then e.reply
    else None
  }

  // ---------------------------------------------------------------- one writer alone

  /** `write` with nothing running beside it. */
  class RedisEntry {
    var entry: Entry

    constructor ()
      ensures entry == NO_ENTRY
    {
      entry := NO_ENTRY;
    }

    method HSetNx(reply: Reply) returns (claimed: bool)
      modifies this
      ensures entry == HSetNxReply(old(entry), reply)
      ensures claimed <==> old(entry).reply.None?
    {
      claimed := entry.reply.None?;
      if claimed {
        entry := entry.(reply := Some(reply));
      }
    }

    method HSetAndExpire(vector: Blob)
      modifies this
      ensures entry == MultiHSetExpire(old(entry), vector)
    {
      entry := entry.(vector := Some(vector), hasTtl := true);
    }

    /** Whatever well-shaped entry it finds, the write leaves it complete, and the first reply stays. */
    method Write(reply: Reply, vector: Blob, secondsLeft: nat)
      requires WellShaped(entry)
      modifies this
      ensures Complete(entry)
      ensures entry.reply == if old(entry).reply.Some? then old(entry).reply else Some(reply)
      ensures Complete(old(entry)) ==> entry == old(entry)
      ensures !Complete(old(entry)) ==> entry.vector == Some(vector)
    {
      var claimed := HSetNx(reply);
      if claimed {
        HSetAndExpire(vector);
        return;
      }
      var hasVector, keyTtl := entry.vector.Some?, Ttl(entry, secondsLeft);
      if !hasVector || keyTtl < 0 {
        HSetAndExpire(vector);
      }
    }
  }

  // ---------------------------------------------------------------- many writers

  /** Where a writer stands between two Redis commands. */
  datatype Pc =
    | Start
    | WonClaim
    | LostClaim
    | Probed(sawVector: bool)
    | Incomplete
    | Done
    | Crashed

  datatype Writer = Writer(reply: Reply, vector: Blob, pc: Pc, restarted: bool)

  /** `claimant` records which writer put the reply that is present now. */
  datatype State = State(entry: Entry, claimant: Option<WriterId>, writers: map<WriterId, Writer>)

  const INITIAL := State(NO_ENTRY, None, map[])

  datatype Step =
    | Spawn(w: WriterId, reply: Reply, vector: Blob)
    | Claim(w: WriterId)                       // HSETNX reply
    | Publish(w: WriterId)                     // MULTI HSET EXPIRE after a won claim
    | ProbeVector(w: WriterId)                 // HEXISTS vector
    | ProbeTtl(w: WriterId, secondsLeft: nat)  // TTL
    | Heal(w: WriterId)                        // MULTI HSET EXPIRE on an incomplete entry
    | Crash(w: WriterId)                       // process death or a Redis error
    | Restart(w: WriterId)                     // the single re-run after a missing-index error
    | Expire
    | Delete

  predicate Running(pc: Pc) { !pc.Done? && !pc.Crashed? }

  predicate Enabled(s: State, step: Step) {
    match step
    case Spawn(w, _, _) => w !in s.writers
    case Claim(w) => w in s.writers && s.writers[w].pc == Start
    case Publish(w) => w in s.writers && s.writers[w].pc == WonClaim
    case ProbeVector(w) => w in s.writers && s.writers[w].pc == LostClaim
    case ProbeTtl(w, _) => w in s.writers && s.writers[w].pc.Probed?
    case Heal(w) => w in s.writers && s.writers[w].pc == Incomplete
    case Crash(w) => w in s.writers && Running(s.writers[w].pc)
    case Restart(w) => w in s.writers && Running(s.writers[w].pc) && !s.writers[w].restarted
    case Expire => s.entry.hasTtl
    case Delete => true
  }

  function Goto(s: State, w: WriterId, pc: Pc): State
    requires w in s.writers
  {
    s.(writers := s.writers[w := s.writers[w].(pc := pc)])
  }

  function Apply(s: State, step: Step): State
    requires Enabled(s, step)
  {
    match step
    case Spawn(w, reply, vector) => s.(writers := s.writers[w := Writer(reply, vector, Start, false)])
    case Claim(w) =>
      if s.entry.reply.None?
      then Goto(s.(entry := HSetNxReply(s.entry, s.writers[w].reply), claimant := Some(w)), w, WonClaim)
      else Goto(s, w, LostClaim)
    case Publish(w) => Goto(s.(entry := MultiHSetExpire(s.entry, s.writers[w].vector)), w, Done)
    case ProbeVector(w) => Goto(s, w, Probed(s.entry.vector.Some?))
    case ProbeTtl(w, secondsLeft) =>
      if !s.writers[w].pc.sawVector || Ttl(s.entry, secondsLeft) < 0
      then Goto(s, w, Incomplete)
      else Goto(s, w, Done)
    case Heal(w) => Goto(s.(entry := MultiHSetExpire(s.entry, s.writers[w].vector)), w, Done)
    case Crash(w) => Goto(s, w, Crashed)
    case Restart(w) => s.(writers := s.writers[w := s.writers[w].(pc := Start, restarted := true)])
    case Expire => s.(entry := NO_ENTRY, claimant := None)
    case Delete => s.(entry := NO_ENTRY, claimant := None)
  }

  predicate IsRun(s: State, steps: seq<Step>)
    decreases |steps|
  {
    steps == [] || (Enabled(s, steps[0]) && IsRun(Apply(s, steps[0]), steps[1..]))
  }

  function Run(s: State, steps: seq<Step>): State
    requires IsRun(s, steps)
    decreases |steps|
  {
    if steps == [] then s else Run(Apply(s, steps[0]), steps[1..])
  }

  /** A step that makes the key disappear. */
  predicate Vanishes(step: Step) { step.Expire? || step.Delete? }

  predicate Undisturbed(steps: seq<Step>) { forall i :: 0 <= i < |steps| ==> !Vanishes(steps[i]) }

  /** Shape, the reply that is present is its claimant's, and the vector is some writer's. */
  ghost predicate Inv(s: State) {
    && WellShaped(s.entry)
    && (s.entry.vector.Some? ==> exists w :: w in s.writers && s.writers[w].vector == s.entry.vector.value)
    && (s.entry.reply.Some? <==> s.claimant.Some?)
    && (s.claimant.Some? ==>
          && s.claimant.value in s.writers
          && s.entry.reply == Some(s.writers[s.claimant.value].reply))
  }

  lemma StepKeepsInv(s: State, step: Step)
    requires Inv(s) && Enabled(s, step)
    ensures Inv(Apply(s, step))
  {
    var t := Apply(s, step);
    if t.entry.vector.Some? {
      if step.Publish? || step.Heal? {
        assert t.writers[step.w].vector == t.entry.vector.value;
      } else {
        var w :| w in s.writers && s.writers[w].vector == s.entry.vector.value;
        assert t.writers[w].vector == t.entry.vector.value;
      }
    }
  }

  lemma {:induction false} RunKeepsInv(s: State, steps: seq<Step>)
    requires Inv(s) && IsRun(s, steps)
    ensures Inv(Run(s, steps))
    decreases |steps|
  {
    if steps != [] {
      StepKeepsInv(s, steps[0]);
      RunKeepsInv(Apply(s, steps[0]), steps[1..]);
    }
  }

  /** Over every run from an empty store: one of four shapes, and only a claimed reply is present. */
  lemma EveryReachableEntryIsWellShaped(steps: seq<Step>)
    requires IsRun(INITIAL, steps)
    ensures var s := Run(INITIAL, steps);
            && WellShaped(s.entry)
            && (s.entry.vector.Some? <==> s.entry.hasTtl)
            && (s.entry.reply.Some? ==>
                  exists w :: w in s.writers && s.writers[w].reply == s.entry.reply.value)
  {
    RunKeepsInv(INITIAL, steps);
    var s := Run(INITIAL, steps);
    if s.entry.reply.Some? {
      assert s.claimant.value in s.writers;
    }
  }

  /** First writer wins: a reply that is present changes only after the key has disappeared. */
  lemma {:induction false} ReplyIsStableUntilItVanishes(s: State, steps: seq<Step>)
    requires Inv(s) && IsRun(s, steps) && Undisturbed(steps) && s.entry.reply.Some?
    ensures Run(s, steps).entry.reply == s.entry.reply
    ensures Run(s, steps).claimant == s.claimant
    ensures s.entry.vector.Some? ==> Run(s, steps).entry.vector.Some?
    decreases |steps|
  {
    if steps != [] {
      StepKeepsInv(s, steps[0]);
      ReplyIsStableUntilItVanishes(Apply(s, steps[0]), steps[1..]);
    }
  }

  /** The writer of the first HSETNX in a run. */
  function FirstClaim(steps: seq<Step>): Option<WriterId> {
    if steps == [] then None else if steps[0].Claim? then Some(steps[0].w) else FirstClaim(steps[1..])
  }

  /** What a writer that has issued its claim may rely on while the key does not vanish. */
  predicate Tracks(s: State, w: WriterId) {
    && w in s.writers
    && match s.writers[w].pc
       case Start => true
       case Crashed => true
       case Probed(saw) => s.entry.reply.Some? && (saw ==> s.entry.vector.Some?)
       case Done => Complete(s.entry)
       case _ => s.entry.reply.Some?
  }

  lemma StepKeepsTracks(s: State, step: Step, w: WriterId)
    requires Inv(s) && Enabled(s, step) && !Vanishes(step) && Tracks(s, w)
    ensures Tracks(Apply(s, step), w)
  {
  }

  lemma {:induction false} RunKeepsTracks(s: State, steps: seq<Step>, w: WriterId)
    requires Inv(s) && IsRun(s, steps) && Undisturbed(steps) && Tracks(s, w)
    ensures Tracks(Run(s, steps), w)
    ensures Run(s, steps).claimant == if s.claimant.Some? then s.claimant else FirstClaim(steps)
    decreases |steps|
  {
    if steps != [] {
      StepKeepsInv(s, steps[0]);
      StepKeepsTracks(s, steps[0], w);
      RunKeepsTracks(Apply(s, steps[0]), steps[1..], w);
    }
  }

  /**
    A condition on the writer's own run alone: one that starts and finishes while the key neither
    expires nor is deleted finishes on a complete entry, whatever the other writers did and wherever
    an earlier claimant crashed, and that entry holds the reply of the first claimant.
  */
  lemma FinishedWriteIsComplete(s: State, steps: seq<Step>, w: WriterId)
    requires Inv(s) && IsRun(s, steps) && Undisturbed(steps)
    requires w in s.writers && s.writers[w].pc == Start
    requires w in Run(s, steps).writers && Run(s, steps).writers[w].pc == Done
    ensures var t := Run(s, steps);
            var first := if s.claimant.Some? then s.claimant else FirstClaim(steps);
            && Complete(t.entry)
            && first.Some? && first.value in t.writers
            && t.entry.reply == Some(t.writers[first.value].reply)
  {
    RunKeepsTracks(s, steps, w);
    RunKeepsInv(s, steps);
  }

  /** The writer of the first claim after the last step that made the key disappear. */
  function FirstClaimSinceVanish(steps: seq<Step>): Option<WriterId> {
    if steps == [] then None
    else
      var last, earlier := steps[|steps| - 1], FirstClaimSinceVanish(steps[..|steps| - 1]);
      if Vanishes(last) then None
      else if earlier.None? && last.Claim? then Some(last.w)
      else earlier
  }

  lemma {:induction false} RunOneMore(s: State, steps: seq<Step>)
    requires steps != [] && IsRun(s, steps)
    ensures var before := steps[..|steps| - 1];
            && IsRun(s, before)
            && Enabled(Run(s, before), steps[|steps| - 1])
            && Run(s, steps) == Apply(Run(s, before), steps[|steps| - 1])
    decreases |steps|
  {
    var before := steps[..|steps| - 1];
    if before == [] {
      assert steps[1..] == [];
    } else {
      assert steps[1..][..|steps| - 2] == before[1..];
      RunOneMore(Apply(s, steps[0]), steps[1..]);
    }
  }

  /** Over every run the claimant is the first since the key last disappeared. */
  lemma {:induction false} ClaimantIsFirstSinceVanish(steps: seq<Step>)
    requires IsRun(INITIAL, steps)
    ensures Run(INITIAL, steps).claimant == FirstClaimSinceVanish(steps)
    decreases |steps|
  {
    if steps != [] {
      var before := steps[..|steps| - 1];
      RunOneMore(INITIAL, steps);
      RunKeepsInv(INITIAL, before);
      ClaimantIsFirstSinceVanish(before);
    }
  }

  /** The step by which a writer finishes leaves a vector with a TTL, or has found one. */
  lemma FinishingStepHasVector(s: State, step: Step, w: WriterId)
    requires Inv(s) && Enabled(s, step)
    requires w in s.writers && s.writers[w].pc != Done
    requires Apply(s, step).writers[w].pc == Done
    ensures Apply(s, step).entry.vector.Some? && Apply(s, step).entry.hasTtl
  {
  }

  /**
    What a finished write is worth, exactly: at the step by which a writer finishes the entry is
    complete if and only if someone, not necessarily that writer, has claimed since the key last
    disappeared, and it then holds the first such claimant's reply. Otherwise it is a vector
    without a reply.
  */
  lemma FinishIsCompleteExactlyWhenClaimedSince(before: seq<Step>, last: Step, w: WriterId)
    requires IsRun(INITIAL, before + [last])
    requires IsRun(INITIAL, before) && w in Run(INITIAL, before).writers
    requires Run(INITIAL, before).writers[w].pc != Done
    requires w in Run(INITIAL, before + [last]).writers && Run(INITIAL, before + [last]).writers[w].pc == Done
    ensures var s := Run(INITIAL, before + [last]);
            var first := FirstClaimSinceVanish(before + [last]);
            && (Complete(s.entry) <==> first.Some?)
            && (VectorOnly(s.entry) <==> first.None?)
            && (first.Some? ==> first.value in s.writers && s.entry.reply == Some(s.writers[first.value].reply))
  {
    var steps := before + [last];
    assert steps[..|steps| - 1] == before;
    RunOneMore(INITIAL, steps);
    RunKeepsInv(INITIAL, before);
    RunKeepsInv(INITIAL, steps);
    FinishingStepHasVector(Run(INITIAL, before), last, w);
    ClaimantIsFirstSinceVanish(steps);
  }

  /** Heal after a crash: a claimant dies between HSETNX and MULTI, the next writer completes its entry. */
  lemma OrphanIsHealedWithItsOwnReply(s: State, steps: seq<Step>, w: WriterId)
    requires Inv(s) && ReplyOnly(s.entry)
    requires IsRun(s, steps) && Undisturbed(steps)
    requires w in s.writers && s.writers[w].pc == Start
    requires w in Run(s, steps).writers && Run(s, steps).writers[w].pc == Done
    ensures Complete(Run(s, steps).entry) && Run(s, steps).entry.reply == s.entry.reply
  {
    FinishedWriteIsComplete(s, steps, w);
    ReplyIsStableUntilItVanishes(s, steps);
  }

  /** A text-identity reader is served only a claimed reply that sits beside a vector and a TTL. */
  lemma TextReaderSeesOnlyCompleteEntries(steps: seq<Step>, servable: Reply -> bool)
    requires IsRun(INITIAL, steps)
    requires GetByTextIdentity(Run(INITIAL, steps).entry, servable).Some?
    ensures var s := Run(INITIAL, steps);
            var r := GetByTextIdentity(s.entry, servable).value;
            && Complete(s.entry) && servable(r)
            && exists w :: w in s.writers && s.writers[w].reply == r
  {
    RunKeepsInv(INITIAL, steps);
    assert Run(INITIAL, steps).claimant.value in Run(INITIAL, steps).writers;
  }

  /** After a finished write, and until the key vanishes, every reader is served the first claimant's reply. */
  lemma FinishedWriteIsReadBack(s: State, steps: seq<Step>, later: seq<Step>, w: WriterId, servable: Reply -> bool)
    requires Inv(s) && IsRun(s, steps) && Undisturbed(steps)
    requires w in s.writers && s.writers[w].pc == Start
    requires w in Run(s, steps).writers && Run(s, steps).writers[w].pc == Done
    requires IsRun(Run(s, steps), later) && Undisturbed(later)
    requires var u := Run(Run(s, steps), later);
             forall x :: x in u.writers ==>
               u.writers[x].vector != [] && u.writers[x].reply != "" && servable(u.writers[x].reply)
    ensures var t := Run(s, steps);
            GetByTextIdentity(Run(t, later).entry, servable) == t.entry.reply
    ensures Run(s, steps).entry.reply.Some?
  {
    FinishedWriteIsComplete(s, steps, w);
    RunKeepsInv(s, steps);
    RunKeepsInv(Run(s, steps), later);
    ReplyIsStableUntilItVanishes(Run(s, steps), later);
  }

  /** Two writers; the key expires between the second one's probe of the vector and of the TTL. */
  const BEFORE_PROBE: seq<Step> := [Spawn(1, "first", [1]), Claim(1), Publish(1), Spawn(2, "second", [2]), Claim(2)]
  const EXPIRY_WHILE_PROBING: seq<Step> := [ProbeVector(2), Expire, ProbeTtl(2, 0), Heal(2)]

  /** One writer done, another about to probe. */
  const PROBING := State(
    Entry(Some("first"), Some([1]), true), Some(1),
    map[1 := Writer("first", [1], Done, false), 2 := Writer("second", [2], LostClaim, false)])

  /** Without the no-expiry condition the completion claim is false: a writer can finish on a vector with no reply. */
  lemma ExpiryCanLeaveAVectorWithoutReply()
    ensures var steps := BEFORE_PROBE + EXPIRY_WHILE_PROBING;
            && IsRun(INITIAL, steps)
            && var s := Run(INITIAL, steps);
               VectorOnly(s.entry) && 2 in s.writers && s.writers[2].pc == Done
  {
    ReachesProbing();
    ProbingEndsVectorOnly();
    RunsCompose(INITIAL, BEFORE_PROBE, EXPIRY_WHILE_PROBING);
  }

  lemma ReachesProbing()
    ensures IsRun(INITIAL, BEFORE_PROBE) && Run(INITIAL, BEFORE_PROBE) == PROBING
  {
    var steps := BEFORE_PROBE;
    var s1 := Apply(INITIAL, steps[0]);
    var s2 := Apply(s1, steps[1]);
    var s3 := Apply(s2, steps[2]);
    var s4 := Apply(s3, steps[3]);
    RunOfOne(s4, steps[4..]);
    RunSplits(s3, steps[3..]);
    RunSplits(s2, steps[2..]);
    RunSplits(s1, steps[1..]);
    RunSplits(INITIAL, steps);
  }

  lemma ProbingEndsVectorOnly()
    ensures IsRun(PROBING, EXPIRY_WHILE_PROBING)
    ensures var s := Run(PROBING, EXPIRY_WHILE_PROBING);
            VectorOnly(s.entry) && 2 in s.writers && s.writers[2].pc == Done
  {
    var steps := EXPIRY_WHILE_PROBING;
    var s1 := Apply(PROBING, steps[0]);
    var s2 := Apply(s1, steps[1]);
    var s3 := Apply(s2, steps[2]);
    RunOfOne(s3, steps[3..]);
    RunSplits(s2, steps[2..]);
    RunSplits(s1, steps[1..]);
    RunSplits(PROBING, steps);
  }

  lemma {:induction false} RunsCompose(s: State, xs: seq<Step>, ys: seq<Step>)
    requires IsRun(s, xs) && IsRun(Run(s, xs), ys)
    ensures IsRun(s, xs + ys) && Run(s, xs + ys) == Run(Run(s, xs), ys)
    decreases |xs|
  {
    if xs == [] {
      assert xs + ys == ys;
    } else {
      assert (xs + ys)[1..] == xs[1..] + ys;
      RunsCompose(Apply(s, xs[0]), xs[1..], ys);
    }
  }

  lemma RunOfOne(s: State, steps: seq<Step>)
    requires |steps| == 1 && Enabled(s, steps[0])
    ensures IsRun(s, steps) && Run(s, steps) == Apply(s, steps[0])
  {
  }

  lemma RunSplits(s: State, steps: seq<Step>)
    requires steps != [] && Enabled(s, steps[0]) && IsRun(Apply(s, steps[0]), steps[1..])
    ensures IsRun(s, steps) && Run(s, steps) == Run(Apply(s, steps[0]), steps[1..])
  {
  }
}

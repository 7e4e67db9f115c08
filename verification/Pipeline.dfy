/** The conversation pipeline end to end: what the provider is sent over a whole run. */
module Pipeline {
  import opened Common
  import opened Conversation
  import opened Compaction
  import opened Turns
  import opened Conversion
  import Wire

  /** The model gives each of its calls an id, and nobody smuggles calls in. */
  ghost predicate Named(t: Turn) {
    WellBehaved(t) && (t.reply.Reply? ==> forall c :: c in t.reply.calls ==> c.id != "")
  }

  ghost predicate NamedRun(s: Progress) {
    NoEmptyId(s.history) && forall r :: r in s.requests ==> NoEmptyId(r)
  }

  lemma NoEmptyIdAppend(h: History, g: History)
    requires NoEmptyId(h) && NoEmptyId(g)
    ensures NoEmptyId(h + g)
  {
  }

  lemma CompactionKeepsIds(h: History, r: History)
    requires NoEmptyId(h) && Compacts(h, r)
    ensures NoEmptyId(r)
  {
  }

  lemma {:induction false} BatchOpensNothing(calls: seq<Call>, results: seq<CallResult>, n: nat)
    requires n <= |calls| == |results| && NewMessagesPlain(results)
    ensures NoEmptyId(BatchUpto(calls, results, n))
    decreases n
  {
    if n > 0 {
      BatchOpensNothing(calls, results, n - 1);
      assert results[n - 1] in results;
    }
  }

  lemma TurnKeepsNamed(cfg: Config, s: Progress, t: Turn, n: nat)
    requires NamedRun(s) && Named(t)
    ensures NamedRun(TurnStep(cfg, s, t, n))
  {
    var c := Prepared(cfg, s, t);
    assert NoEmptyId(c.history) by {
      var r := Compacted(s.history, t.summary);
      if r.Some? {
        CompactionKeepsIds(s.history, r.value);
      }
    }
    hide Compacted, Due;
    if t.reply.Reply? && !t.cancelled {
      AssistantRequests(t.reply);
      BatchOpensNothing(t.reply.calls, t.results, |t.reply.calls|);
      var a := AssistantMessage(t.reply);
      var inject := if t.decision.terminate.Some? then [] else t.decision.inject;
      NoEmptyIdAppend(Batch(t.reply.calls, t.results), inject);
      hide AssistantMessage;
      assert NoEmptyId([a]);
      NoEmptyIdAppend(c.history, [a] + Batch(t.reply.calls, t.results) + inject);
    }
  }

  lemma {:induction false} IdsHoldThroughout(cfg: Config, start: Progress, script: seq<Turn>, n: nat)
    requires n <= |script| && (forall t :: t in script ==> Aligned(t) && Named(t)) && NamedRun(start)
    ensures NamedRun(RunUpto(cfg, start, script, n))
    decreases n
  {
    if n > 0 {
      hide NamedRun, TurnStep, NewMessagesPlain, Unbroken;
      IdsHoldThroughout(cfg, start, script, n - 1);
      TurnKeepsNamed(cfg, RunUpto(cfg, start, script, n - 1), script[n - 1], n);
    }
  }

  lemma VisibleKeepsIds(h: History)
    requires NoEmptyId(h)
    ensures NoEmptyId(Visible(h))
  {
  }

  /** Over a whole run of turns, compactions and tool batches, every request reaches
      the provider complete and strictly paired, with a user message in front. */
  lemma EveryRequestIsStrict(cfg: Config, start: Progress, script: seq<Turn>, r: History,
                             systemPrompt: string, includeReasoning: bool, visionOK: bool, valid: string -> bool)
    requires (forall t :: t in script ==> Aligned(t) && Named(t)) && SoundRun(start) && NamedRun(start) && valid("{}")
    requires r in RunUpto(cfg, start, script, |script|).requests
    ensures var w := Wire.Sanitized(Converted(r, systemPrompt, includeReasoning, visionOK), valid);
            && StrictlyPaired(w) && Wire.ArgumentsValid(w, valid)
            && |w| == |Prompt(systemPrompt)| + |Visible(r)|
            && |Prompt(systemPrompt)| < |w| && w[|Prompt(systemPrompt)|].role == Wire.User
  {
    hide Wire.Sanitized, StrictlyPaired, Wire.ArgumentsValid, NewMessagesPlain, Unbroken, RunUpto;
    PairingHoldsThroughout(cfg, start, script, |script|);
    IdsHoldThroughout(cfg, start, script, |script|);
    FirstIsUser(r, systemPrompt, includeReasoning, visionOK, valid);
    hide *;
  }

  lemma FirstIsUser(r: History, systemPrompt: string, includeReasoning: bool, visionOK: bool, valid: string -> bool)
    requires Sound(r) && NoEmptyId(r) && valid("{}")
    ensures var w := Wire.Sanitized(Converted(r, systemPrompt, includeReasoning, visionOK), valid);
            && StrictlyPaired(w) && Wire.ArgumentsValid(w, valid)
            && |w| == |Prompt(systemPrompt)| + |Visible(r)|
            && |Prompt(systemPrompt)| < |w| && w[|Prompt(systemPrompt)|].role == Wire.User
  {
    hide Wire.Sanitized, StrictlyPaired, Wire.ArgumentsValid, Paired;
    VisibleKeepsIds(r);
    SanitizeOnlyRepairs(r, systemPrompt, includeReasoning, visionOK, valid);
    SoundRequestIsStrict(r, systemPrompt, includeReasoning, visionOK, valid);
    assert Visible(r)[0] == r[0];
    WireResult(r[0], includeReasoning, visionOK);
  }
}

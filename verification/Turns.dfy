/** The turn loop: compaction, the model call, recording of the assistant message
    and of the tool results (internal/engine/loop/loop.go). */
module Turns {
  import opened Common
  import opened Conversation
  import opened Compaction

  datatype Usage = Usage(input: int, output: int, cacheRead: int, cacheWrite: int)

  datatype LlmReply =
    | NoReply
    | StreamError(error: string)
    | Reply(text: string, calls: seq<Call>, usage: Option<Usage>, reasoning: string)

  datatype Reason = AbortedStreaming | ModelError | MaxTurns | Decided(name: string)

  datatype Terminal = Terminal(reason: Reason, message: string, turn: int)

  datatype Decision = Decision(terminate: Option<Terminal>, inject: seq<Message>)

  /** What the outside world answers in one turn: whether the context is cancelled,
      the summariser's reply, the model's reply, the tool results and the hook's decision. */
  datatype Turn = Turn(cancelled: bool, summary: Summary, reply: LlmReply, results: seq<CallResult>, decision: Decision)

  datatype Config = Config(hasHook: bool, hasChecker: bool, hasCompactor: bool,
                           maxTurns: int, contextWindow: int, autoCompactThreshold: real)

  datatype Result = Result(last: Option<Message>, numTurns: nat, usage: Usage,
                           lastResults: seq<CallResult>, terminal: Option<Terminal>)

  /** Everything a run has changed so far, and every request it has sent. */
  datatype Progress = Progress(history: History, inputTokens: int, failures: nat, requests: seq<History>, result: Result)

  const DEFAULT_THRESHOLD := 0.8
  const NOTHING := Result(None, 0, Usage(0, 0, 0, 0), [], None)

  function OutOfTurns(n: int): string {
    "max turns reached (" + (if n >= 0 then Digits(n) else "") + ")"
  }

  function Threshold(cfg: Config): real {
    if cfg.autoCompactThreshold == 0.0 then DEFAULT_THRESHOLD else cfg.autoCompactThreshold
  }

  function ToolUses(calls: seq<Call>): seq<Block> {
    seq(|calls|, i requires 0 <= i < |calls| => ToolUse(calls[i].id, calls[i].name, calls[i].input))
  }

  function AssistantMessage(r: LlmReply): Message
    requires r.Reply?
  {
    Message(
      Assistant,
      (if r.text != "" then [Text(r.text)] else []) + ToolUses(r.calls),
      if r.usage.Some? then r.usage.value.input + r.usage.value.output else 0,
      r.reasoning)
  }

  /** The recorded message opens exactly the ids the model asked for. */
  lemma AssistantRequests(r: LlmReply)
    requires r.Reply?
    ensures Requests(AssistantMessage(r), r.calls)
  {
    var m := AssistantMessage(r);
    var at := if r.text != "" then 1 else 0;
    assert forall b :: b in m.content ==> !b.ToolResult?;
    forall id ensures id in Opens(m) <==> id in CallIds(r.calls) {
      if id in CallIds(r.calls) {
        var i :| 0 <= i < |r.calls| && r.calls[i].id == id;
        assert m.content[at + i] == ToolUse(id, r.calls[i].name, r.calls[i].input);
      }
      if id in Opens(m) {
        var j :| 0 <= j < |m.content| && m.content[j].ToolUse? && m.content[j].id == id;
        assert r.calls[j - at] in r.calls;
      }
    }
  }

  method BuildAssistantMessage(r: LlmReply) returns (m: Message)
    requires r.Reply?
    ensures m == AssistantMessage(r)
  {
    var content := [];
    if r.text != "" {
      content := content + [Text(r.text)];
    }
    ghost var head := content;
    for i := 0 to |r.calls|
      invariant content == head + ToolUses(r.calls)[..i]
    {
      content := content + [ToolUse(r.calls[i].id, r.calls[i].name, r.calls[i].input)];
    }
    assert ToolUses(r.calls)[..|r.calls|] == ToolUses(r.calls);
    m := Message(Assistant, content, 0, "");
    if r.usage.Some? {
      m := m.(tokens := r.usage.value.input + r.usage.value.output);
    }
    if r.reasoning != "" {
      m := m.(reasoning := r.reasoning);
    }
  }

  function AddUsage(u: Usage, v: Option<Usage>): Usage {
    if v.None? then u
    else Usage(u.input + v.value.input, u.output + v.value.output,
               u.cacheRead + v.value.cacheRead, u.cacheWrite + v.value.cacheWrite)
  }

  /** The tool results line up with the calls. */
  predicate Aligned(t: Turn) {
    t.reply.Reply? ==> |t.results| == |t.reply.calls|
  }

  // ----- The run as a function of the turns -----

  /** Phase 1: the history to send, and the compactor's failure count. */
  function Prepared(cfg: Config, s: Progress, t: Turn): Progress {
    if cfg.hasCompactor && Due(s.failures, s.history, cfg.contextWindow, Threshold(cfg)) then
      var c := Compacted(s.history, t.summary);
      s.(history := if c.Some? then c.value else s.history, failures := FailuresAfter(s.failures, s.history, t.summary))
    else s
  }

  /** Phases 3 to 5: what a reply leaves behind. */
  function Recorded(s: Progress, t: Turn, n: nat): Progress
    requires t.reply.Reply? && Aligned(t)
  {
    var a := AssistantMessage(t.reply);
    var added := [a] + Batch(t.reply.calls, t.results) + if t.decision.terminate.Some? then [] else t.decision.inject;
    var results := if t.reply.calls == [] then s.result.lastResults else t.results;
    s.(history := s.history + added, inputTokens := s.inputTokens + Tokens(added),
       result := Result(Some(a), n, AddUsage(s.result.usage, t.reply.usage), results, t.decision.terminate))
  }

  function TurnStep(cfg: Config, s: Progress, t: Turn, n: nat): Progress
    requires Aligned(t)
  {
    if t.cancelled then s.(result := s.result.(terminal := Some(Terminal(AbortedStreaming, "", n - 1))))
    else
      var c := Prepared(cfg, s, t);
      var sent := c.(requests := c.requests + [c.history]);
      match t.reply
      case NoReply => sent.(result := sent.result.(terminal := Some(Terminal(ModelError, "", n))))
      case StreamError(e) => sent.(result := sent.result.(terminal := Some(Terminal(ModelError, e, n))))
      case Reply(_, _, _, _) => Recorded(sent, t, n)
  }

  /** The run after n turns of the script. */
  function RunUpto(cfg: Config, start: Progress, script: seq<Turn>, n: nat): Progress
    requires n <= |script| && forall t :: t in script ==> Aligned(t)
  {
    if n == 0 then start
    else
      var s := RunUpto(cfg, start, script, n - 1);
      if s.result.terminal.Some? || (cfg.maxTurns > 0 && n > cfg.maxTurns) then s
      else TurnStep(cfg, s, script[n - 1], n)
  }

  /** A run that used up its turns ends as such; without a terminal the script stopped mid-run. */
  function Finish(cfg: Config, s: Progress, turns: nat): Progress {
    if s.result.terminal.None? && cfg.maxTurns > 0 && turns >= cfg.maxTurns
    then s.(result := s.result.(terminal := Some(Terminal(MaxTurns, OutOfTurns(cfg.maxTurns), cfg.maxTurns))))
    else s
  }

  lemma AddedTokens(a: Message, batch: History, inject: History)
    ensures Tokens([a] + batch + inject) == a.tokens + Tokens(batch) + Tokens(inject)
    ensures forall h: History :: h + ([a] + batch + inject) == h + [a] + batch + inject
    ensures [a] + batch + [] == [a] + batch && Tokens([]) == 0 && forall h: History :: h + [] == h
  {
    TokensAppend([a], batch);
    TokensAppend([a] + batch, inject);
    assert Tokens([a]) == a.tokens;
  }

  lemma NoCallsNoBatch(calls: seq<Call>, results: seq<CallResult>)
    requires |calls| == |results|
    ensures calls == [] ==> Batch(calls, results) == [] && Tokens(Batch(calls, results)) == 0
  {
  }

  // ----- The loop itself -----

  class Engine {
    const session: Session
    const compactor: LLMCompactor
    var requests: seq<History>

    constructor (session: Session, compactor: LLMCompactor)
      ensures this.session == session && this.compactor == compactor && requests == []
    {
      this.session := session;
      this.compactor := compactor;
      requests := [];
    }

    ghost function State(result: Result): Progress
      reads this, session, compactor
    {
      Progress(session.messages, session.totalInputTokens, compactor.failureCount, requests, result)
    }

    method AutoCompact(cfg: Config, t: Turn, ghost result: Result) returns (messages: History)
      modifies session, compactor
      ensures State(result) == Prepared(cfg, old(State(result)), t)
      ensures messages == session.messages
    {
      messages := session.messages;
      if cfg.hasCompactor {
        var due := compactor.ShouldCompact(messages, cfg.contextWindow, Threshold(cfg));
        if due {
          var compacted := compactor.Compact(messages, t.summary);
          if compacted.Some? {
            session.SetMessages(compacted.value);
            messages := compacted.value;
          }
        }
      }
    }

    method Record(t: Turn, n: nat, before: Result) returns (result: Result)
      requires t.reply.Reply? && Aligned(t)
      modifies session
      ensures State(result) == Recorded(old(State(before)), t, n)
    {
      hide AssistantMessage, Tokens, BatchUpto;
      NoCallsNoBatch(t.reply.calls, t.results);
      var a := BuildAssistantMessage(t.reply);
      session.AddMessage(a);
      result := before.(last := Some(a), numTurns := n, usage := AddUsage(before.usage, t.reply.usage), terminal := None);
      if t.reply.calls != [] {
        result := result.(lastResults := t.results);
        session.AppendToolResults(t.reply.calls, t.results);
      }
      AddedTokens(a, Batch(t.reply.calls, t.results), []);
      AddedTokens(a, Batch(t.reply.calls, t.results), t.decision.inject);
      hide Tokens, Batch;
      if t.decision.terminate.Some? {
        return result.(terminal := t.decision.terminate);
      }
      session.AddAll(t.decision.inject);
    }

    method OneTurn(cfg: Config, t: Turn, n: nat, before: Result) returns (result: Result)
      requires Aligned(t)
      modifies this, session, compactor
      ensures State(result) == TurnStep(cfg, old(State(before)), t, n)
    {
      if t.cancelled {
        return before.(terminal := Some(Terminal(AbortedStreaming, "", n - 1)));
      }
      var messages := AutoCompact(cfg, t, before);
      requests := requests + [messages];
      match t.reply
      case NoReply => result := before.(terminal := Some(Terminal(ModelError, "", n)));
      case StreamError(e) => result := before.(terminal := Some(Terminal(ModelError, e, n)));
      case Reply(_, _, _, _) => result := Record(t, n, before);
    }

    /** Run: an error when a required collaborator is missing, else the run of the script. */
    method Run(cfg: Config, script: seq<Turn>) returns (r: Option<Result>)
      requires forall t :: t in script ==> Aligned(t)
      modifies this, session, compactor
      ensures r.None? <==> !cfg.hasHook || !cfg.hasChecker
      ensures r.None? ==> State(NOTHING) == old(State(NOTHING))
      ensures r.Some? ==> State(r.value) == Finish(cfg, RunUpto(cfg, old(State(NOTHING)), script, |script|), |script|)
    {
      if !cfg.hasHook || !cfg.hasChecker {
        return None;
      }
      ghost var start := State(NOTHING);
      var result := NOTHING;
      var turn := 1;
      while (cfg.maxTurns <= 0 || turn <= cfg.maxTurns) && turn <= |script|
        invariant 1 <= turn <= |script| + 1
        invariant cfg.maxTurns > 0 ==> turn <= cfg.maxTurns + 1
        invariant State(result) == RunUpto(cfg, start, script, turn - 1)
        invariant result.terminal.None?
      {
        result := OneTurn(cfg, script[turn - 1], turn, result);
        if result.terminal.Some? {
          RunStays(cfg, start, script, turn, |script|);
          return Some(result);
        }
        turn := turn + 1;
      }
      RunStays(cfg, start, script, turn - 1, |script|);
      if cfg.maxTurns > 0 && turn > cfg.maxTurns {
        result := result.(terminal := Some(Terminal(MaxTurns, OutOfTurns(cfg.maxTurns), cfg.maxTurns)));
      }
      return Some(result);
    }
  }

  /** Once a run has ended, or is out of turns, later script entries change nothing. */
  lemma {:induction false} RunStays(cfg: Config, start: Progress, script: seq<Turn>, m: nat, n: nat)
    requires m <= n <= |script| && forall t :: t in script ==> Aligned(t)
    requires RunUpto(cfg, start, script, m).result.terminal.Some? || (cfg.maxTurns > 0 && m >= cfg.maxTurns) || m == n
    ensures RunUpto(cfg, start, script, n) == RunUpto(cfg, start, script, m)
    decreases n
  {
    if m < n {
      RunStays(cfg, start, script, m, n - 1);
    }
  }

  // ----- What a turn does, stated outright -----

  /** The recorded assistant message: the text if there is any, one block per call in
      order, the tokens of the usage report and the reasoning. */
  lemma AssistantReads(r: LlmReply)
    requires r.Reply?
    ensures var m := AssistantMessage(r);
            var at := if r.text == "" then 0 else 1;
            && m.role == Assistant && m.reasoning == r.reasoning && |m.content| == at + |r.calls|
            && (r.text != "" ==> m.content[0] == Text(r.text))
            && (forall i :: 0 <= i < |r.calls| ==>
                  m.content[at + i] == ToolUse(r.calls[i].id, r.calls[i].name, r.calls[i].input))
            && (r.usage.Some? ==> m.tokens == r.usage.value.input + r.usage.value.output)
            && (r.usage.None? ==> m.tokens == 0)
  {
  }

  /** Compaction is called for: the breaker is closed and the history exceeds its share of the window. */
  predicate CompactionDue(cfg: Config, s: Progress) {
    && cfg.hasCompactor && s.failures < 3
    && Tokens(s.history) as real >
       cfg.contextWindow as real * (if cfg.autoCompactThreshold == 0.0 then 0.8 else cfg.autoCompactThreshold)
  }

  /** The history as it is sent: shorter when a due compaction of four or more messages
      succeeded, and unchanged in every other case. */
  ghost predicate SentAfterCompaction(cfg: Config, s: Progress, t: Turn, sent: History) {
    if CompactionDue(cfg, s) && |s.history| >= 4 && (|s.history| < 10 || !t.summary.Failed?)
    then 1 <= |sent| < |s.history| && Compacts(s.history, sent)
    else sent == s.history
  }

  /** The count of useless summaries in a row. */
  predicate FailuresCounted(cfg: Config, s: Progress, t: Turn, after: nat) {
    after == if !CompactionDue(cfg, s) || |s.history| < 10 then s.failures
             else if t.summary.Failed? || Blank(t.summary.text) then s.failures + 1
             else 0
  }

  /** What one turn does to a run: a cancelled turn only ends it. Any other sends exactly
      one request, the history after compaction; a model error leaves that history as it
      is and ends the run; a reply is appended to it as one assistant message, followed by
      the tool results and, unless the hook ends the run, the messages it injects. */
  ghost predicate TurnTaken(cfg: Config, s: Progress, t: Turn, n: int, after: Progress)
    requires Aligned(t)
  {
    if t.cancelled then
      after == s.(result := s.result.(terminal := Some(Terminal(AbortedStreaming, "", n - 1))))
    else
      && |after.requests| == |s.requests| + 1 && after.requests[..|s.requests|] == s.requests
      && SentAfterCompaction(cfg, s, t, after.requests[|s.requests|]) && FailuresCounted(cfg, s, t, after.failures)
      && var sent := after.requests[|s.requests|];
         match t.reply
         case NoReply => Broken(s, sent, after, "", n)
         case StreamError(e) => Broken(s, sent, after, e, n)
         case Reply(_, _, _, _) => Replied(s, sent, after, t, n)
  }

  /** A turn with a reply. */
  ghost predicate Replied(s: Progress, sent: History, after: Progress, t: Turn, n: int)
    requires t.reply.Reply? && Aligned(t)
  {
    && |after.history| > |sent| && after.history[..|sent|] == sent
    && after.history[|sent|] == AssistantMessage(t.reply)
    && after.history[|sent| + 1..] ==
       Batch(t.reply.calls, t.results) + (if t.decision.terminate.Some? then [] else t.decision.inject)
    && after.inputTokens == s.inputTokens + Tokens(after.history[|sent|..])
    && after.result.last == Some(after.history[|sent|]) && after.result.numTurns == n
    && after.result.terminal == t.decision.terminate
    && after.result.lastResults == (if t.reply.calls == [] then s.result.lastResults else t.results)
    && UsageAdded(s.result.usage, t.reply.usage, after.result.usage)
  }

  /** A turn without a usable reply: nothing is recorded, and the run has ended. */
  predicate Broken(s: Progress, sent: History, after: Progress, message: string, n: int) {
    && after.history == sent && after.inputTokens == s.inputTokens
    && after.result == s.result.(terminal := Some(Terminal(ModelError, message, n)))
  }

  predicate UsageAdded(before: Usage, reported: Option<Usage>, after: Usage) {
    && (reported.None? ==> after == before)
    && (reported.Some? ==>
          && after.input == before.input + reported.value.input && after.output == before.output + reported.value.output
          && after.cacheRead == before.cacheRead + reported.value.cacheRead
          && after.cacheWrite == before.cacheWrite + reported.value.cacheWrite)
  }

  lemma PreparedReads(cfg: Config, s: Progress, t: Turn)
    ensures var c := Prepared(cfg, s, t);
            && SentAfterCompaction(cfg, s, t, c.history) && FailuresCounted(cfg, s, t, c.failures)
            && c.requests == s.requests && c.inputTokens == s.inputTokens && c.result == s.result
  {
    CompactFailsExactly(s.history, t.summary);
    assert CompactionDue(cfg, s) <==> cfg.hasCompactor && Due(s.failures, s.history, cfg.contextWindow, Threshold(cfg));
    var r := Compacted(s.history, t.summary);
    hide Tokens, Due, Threshold, Micro, Full;
    if |s.history| >= 4 && r.Some? {
      CompactionShortens(s.history, r.value);
    }
  }

  lemma RecordedReads(s: Progress, t: Turn, n: nat)
    requires t.reply.Reply? && Aligned(t)
    ensures var after := Recorded(s, t, n);
            Replied(s, s.history, after, t, n) && after.failures == s.failures && after.requests == s.requests
  {
    hide AssistantMessage, Batch, Tokens;
    var after := Recorded(s, t, n);
    assert after.history[|s.history|..] == after.history[|s.history|..][..1] + after.history[|s.history| + 1..];
    assert after.history == s.history + after.history[|s.history|..];
  }

  /** Only the tokens and the result so far matter of the state before. */
  lemma RepliedSame(c: Progress, s: Progress, after: Progress, t: Turn, n: int)
    requires t.reply.Reply? && Aligned(t) && Replied(c, c.history, after, t, n)
    requires c.inputTokens == s.inputTokens && c.result == s.result
    ensures Replied(s, c.history, after, t, n)
  {
  }

  lemma ReplyTurnReads(cfg: Config, s: Progress, t: Turn, n: nat)
    requires Aligned(t) && !t.cancelled && t.reply.Reply?
    ensures TurnTaken(cfg, s, t, n, TurnStep(cfg, s, t, n))
  {
    PreparedReads(cfg, s, t);
    var c := Prepared(cfg, s, t);
    var sent := c.(requests := c.requests + [c.history]);
    var after := Recorded(sent, t, n);
    RecordedReads(sent, t, n);
    RepliedSame(sent, s, after, t, n);
    assert TurnStep(cfg, s, t, n) == after;
    hide Prepared, Recorded, TurnStep, Replied, SentAfterCompaction, FailuresCounted;
    assert after.requests[..|s.requests|] == s.requests && after.requests[|s.requests|] == c.history;
  }

  lemma TurnReads(cfg: Config, s: Progress, t: Turn, n: nat)
    requires Aligned(t)
    ensures TurnTaken(cfg, s, t, n, TurnStep(cfg, s, t, n))
  {
    if !t.cancelled {
      if t.reply.Reply? {
        ReplyTurnReads(cfg, s, t, n);
        hide TurnTaken, TurnStep;
      } else {
        PreparedReads(cfg, s, t);
        hide Prepared, SentAfterCompaction, FailuresCounted;
      }
    }
  }

  /** A run takes the turns of its script one after the other, each as stated, until it has
      ended or the turns it is allowed are used up; then nothing more happens. */
  lemma RunTakesTurns(cfg: Config, start: Progress, script: seq<Turn>, n: nat)
    requires n < |script| && forall t :: t in script ==> Aligned(t)
    ensures var s, after := RunUpto(cfg, start, script, n), RunUpto(cfg, start, script, n + 1);
            if s.result.terminal.None? && (cfg.maxTurns <= 0 || n < cfg.maxTurns)
            then TurnTaken(cfg, s, script[n], n + 1, after)
            else after == s
  {
    TurnReads(cfg, RunUpto(cfg, start, script, n), script[n], n + 1);
    hide TurnTaken, TurnStep;
  }

  /** A run ends with what its last turn decided; one that used up the turns it was
      allowed ends by saying so. */
  lemma RunEnds(cfg: Config, s: Progress, turns: nat)
    ensures var f := Finish(cfg, s, turns);
            && f == s.(result := f.result) && f.result == s.result.(terminal := f.result.terminal)
            && (s.result.terminal.Some? || cfg.maxTurns <= 0 || turns < cfg.maxTurns ==> f.result.terminal == s.result.terminal)
            && (s.result.terminal.None? && 0 < cfg.maxTurns <= turns ==>
                  f.result.terminal ==
                  Some(Terminal(MaxTurns, "max turns reached (" + Digits(cfg.maxTurns) + ")", cfg.maxTurns)))
  {
  }

  // ----- What every run keeps -----

  /** No result but the last of a batch brings messages, and nobody injects tool traffic. */
  ghost predicate WellBehaved(t: Turn) {
    && Aligned(t)
    && (t.reply.Reply? ==> NewMessagesPlain(t.results) && Unbroken(t.results))
    && (forall m :: m in t.decision.inject ==> Plain(m))
  }

  ghost predicate SoundRun(s: Progress) {
    Sound(s.history) && forall r :: r in s.requests ==> Sound(r)
  }

  lemma RecordedStaysPaired(s: Progress, t: Turn, n: nat)
    requires Sound(s.history) && t.reply.Reply? && WellBehaved(t)
    ensures Sound(Recorded(s, t, n).history)
  {
    var a := AssistantMessage(t.reply);
    AssistantRequests(t.reply);
    TurnKeepsPairingIff(s.history, a, t.reply.calls, t.results);
    var h := s.history + [a] + Batch(t.reply.calls, t.results);
    var inject := if t.decision.terminate.Some? then [] else t.decision.inject;
    AllPlainIsPaired(inject);
    PairedJoin(h, inject);
    assert Recorded(s, t, n).history == h + inject;
  }

  lemma TurnKeepsSound(cfg: Config, s: Progress, t: Turn, n: nat)
    requires SoundRun(s) && WellBehaved(t)
    ensures SoundRun(TurnStep(cfg, s, t, n))
  {
    var c := Prepared(cfg, s, t);
    assert Sound(c.history) by {
      var r := Compacted(s.history, t.summary);
      if r.Some? {
        CompactionKeepsSound(s.history, r.value);
      }
    }
    hide Sound, Compacted, Due;
    if t.reply.Reply? {
      RecordedStaysPaired(c.(requests := c.requests + [c.history]), t, n);
    }
  }

  /** Tool pairing is a whole-run invariant: at every turn boundary the history is
      paired and opens with a user message, and so was every request sent. */
  lemma {:induction false} PairingHoldsThroughout(cfg: Config, start: Progress, script: seq<Turn>, n: nat)
    requires n <= |script| && (forall t :: t in script ==> Aligned(t) && WellBehaved(t)) && SoundRun(start)
    ensures SoundRun(RunUpto(cfg, start, script, n))
    decreases n
  {
    if n > 0 {
      hide SoundRun, TurnStep, NewMessagesPlain, Unbroken;
      PairingHoldsThroughout(cfg, start, script, n - 1);
      TurnKeepsSound(cfg, RunUpto(cfg, start, script, n - 1), script[n - 1], n);
    }
  }
}

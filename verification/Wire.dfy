/** Chat messages as they go to the model provider, and the sanitiser that every
    request passes through (internal/provider/bifrost/adapter.go). */
module Wire {
  import opened Common

  datatype Role = System | User | Assistant | Tool

  datatype Block =
    | TextBlock(text: Option<string>)
    | ImageBlock(url: string, cached: bool)
    | FileBlock(data: string, url: string, filename: string, mediaType: string, cached: bool)

  datatype Content = NoContent | Str(s: string) | Blocks(blocks: seq<Block>)

  datatype ToolCall = ToolCall(id: Option<string>, name: Option<string>, arguments: string)

  datatype AssistantPart = AssistantPart(toolCalls: seq<ToolCall>, reasoning: Option<string>)

  datatype Message = Message(role: Role, content: Content, assistant: Option<AssistantPart>, toolCallId: Option<string>)

  function CallsOf(m: Message): seq<ToolCall> {
    if m.role == Assistant && m.assistant.Some? then m.assistant.value.toolCalls else []
  }

  /** The id a tool message answers, "" when it has none. */
  function AnswerId(m: Message): string {
    if m.toolCallId.Some? then m.toolCallId.value else ""
  }

  function IdOf(tc: ToolCall): string {
    if tc.id.Some? then tc.id.value else ""
  }

  function IdsOf(calls: seq<ToolCall>): set<string> {
    set tc | tc in calls && IdOf(tc) != "" :: IdOf(tc)
  }

  function OpenIds(msgs: seq<Message>): set<string> {
    set m, tc | m in msgs && tc in CallsOf(m) && IdOf(tc) != "" :: IdOf(tc)
  }

  predicate Orphan(m: Message, open: set<string>) {
    m.role == Tool && (AnswerId(m) == "" || AnswerId(m) !in open)
  }

  function AnsweredIds(msgs: seq<Message>, open: set<string>): set<string> {
    set m | m in msgs && m.role == Tool && !Orphan(m, open) :: AnswerId(m)
  }

  predicate HasText(c: Content) {
    match c
    case NoContent => false
    case Str(s) => s != ""
    case Blocks(bs) => exists b :: b in bs && b.TextBlock? && b.text.Some? && b.text.value != ""
  }

  /** Index of the last assistant message, -1 when there is none. */
  function LastAssistant(msgs: seq<Message>): (i: int)
    ensures -1 <= i < |msgs|
    ensures i >= 0 ==> msgs[i].role == Assistant
    ensures forall k :: i < k < |msgs| ==> msgs[k].role != Assistant
  {
    if msgs == [] then -1
    else if msgs[|msgs| - 1].role == Assistant then |msgs| - 1
    else LastAssistant(msgs[..|msgs| - 1])
  }

  predicate Answered(tc: ToolCall, answered: set<string>) {
    tc.id.Some? && tc.id.value in answered
  }

  function KeepAnswered(calls: seq<ToolCall>, answered: set<string>): seq<ToolCall> {
    if calls == [] then []
    else
      var tc := calls[|calls| - 1];
      KeepAnswered(calls[..|calls| - 1], answered) + (if Answered(tc, answered) then [tc] else [])
  }

  function RepairCall(tc: ToolCall, valid: string -> bool): ToolCall {
    if tc.arguments == "" || valid(tc.arguments) then tc else tc.(arguments := "{}")
  }

  function RepairCalls(calls: seq<ToolCall>, valid: string -> bool): (r: seq<ToolCall>)
    ensures |r| == |calls| && forall i :: 0 <= i < |r| ==> r[i] == RepairCall(calls[i], valid)
  {
    seq(|calls|, i requires 0 <= i < |calls| => RepairCall(calls[i], valid))
  }

  function Repair(m: Message, valid: string -> bool): Message {
    if m.role == Assistant && m.assistant.Some? then
      m.(assistant := Some(m.assistant.value.(toolCalls := RepairCalls(m.assistant.value.toolCalls, valid))))
    else m
  }

  /** What becomes of an assistant message that is not the last one: calls nobody
      answered are taken out, and the message goes when nothing is left of it. */
  function Strip(m: Message, answered: set<string>): Option<Message> {
    if CallsOf(m) == [] then Some(m)
    else
      var kept := KeepAnswered(CallsOf(m), answered);
      if kept != [] then Some(m.(assistant := Some(m.assistant.value.(toolCalls := kept))))
      else if HasText(m.content) then Some(m.(assistant := None))
      else None
  }

  /** The whole-request facts that decide the fate of each message. */
  datatype Context = Context(open: set<string>, answered: set<string>, last: int)

  function ContextOf(msgs: seq<Message>): Context {
    Context(OpenIds(msgs), AnsweredIds(msgs, OpenIds(msgs)), LastAssistant(msgs))
  }

  /** The reference definition of the sanitiser, one message at a time. */
  function Fate(c: Context, m: Message, i: int, valid: string -> bool): Option<Message> {
    if m.role == Tool then (if Orphan(m, c.open) then None else Some(m))
    else
      var kept := if i == c.last then Some(m) else Strip(m, c.answered);
      if kept.None? then None else Some(Repair(kept.value, valid))
  }

  function SanitizedUpto(c: Context, msgs: seq<Message>, n: nat, valid: string -> bool): seq<Message>
    requires n <= |msgs|
  {
    if n == 0 then []
    else
      var r := SanitizedUpto(c, msgs, n - 1, valid);
      match Fate(c, msgs[n - 1], n - 1, valid) case Some(m) => r + [m] case None => r
  }

  function Sanitized(msgs: seq<Message>, valid: string -> bool): seq<Message> {
    SanitizedUpto(ContextOf(msgs), msgs, |msgs|, valid)
  }

  /** The indices of the messages that survive. */
  function Survivors(c: Context, msgs: seq<Message>, n: nat, valid: string -> bool): seq<nat>
    requires n <= |msgs|
  {
    if n == 0 then []
    else
      var r := Survivors(c, msgs, n - 1, valid);
      if Fate(c, msgs[n - 1], n - 1, valid).Some? then r + [n - 1] else r
  }

  // ----- The four-pass implementation -----

  /** Pass 1: every id that some assistant message opens. */
  method CollectOpen(msgs: seq<Message>) returns (open: set<string>)
    ensures open == OpenIds(msgs)
  {
    open := {};
    for i := 0 to |msgs|
      invariant open == OpenIds(msgs[..i])
    {
      assert msgs[..i + 1] == msgs[..i] + [msgs[i]];
      var calls := CallsOf(msgs[i]);
      for j := 0 to |calls|
        invariant open == OpenIds(msgs[..i]) + IdsOf(calls[..j])
      {
        assert calls[..j + 1] == calls[..j] + [calls[j]];
        if IdOf(calls[j]) != "" {
          open := open + {IdOf(calls[j])};
        }
      }
      assert calls[..|calls|] == calls;
      assert OpenIds(msgs[..i + 1]) == OpenIds(msgs[..i]) + IdsOf(calls);
    }
    assert msgs[..|msgs|] == msgs;
  }

  function DropOrphans(msgs: seq<Message>, open: set<string>): seq<Message> {
    if msgs == [] then []
    else
      var m := msgs[|msgs| - 1];
      var r := DropOrphans(msgs[..|msgs| - 1], open);
      if Orphan(m, open) then r else r + [m]
  }

  /** Pass 2: drop orphan tool messages and note the answered ids. */
  method PassTwo(msgs: seq<Message>, open: set<string>) returns (out: seq<Message>, answered: set<string>)
    ensures out == DropOrphans(msgs, open) && answered == AnsweredIds(msgs, open)
  {
    out, answered := [], {};
    for i := 0 to |msgs|
      invariant out == DropOrphans(msgs[..i], open)
      invariant answered == AnsweredIds(msgs[..i], open)
    {
      assert msgs[..i + 1] == msgs[..i] + [msgs[i]];
      assert msgs[..i + 1][..i] == msgs[..i];
      var m := msgs[i];
      if m.role == Tool {
        if Orphan(m, open) {
          continue;
        }
        answered := answered + {AnswerId(m)};
      }
      out := out + [m];
    }
    assert msgs[..|msgs|] == msgs;
  }

  /** Filtering a call list into its own backing store: each kept call is written
      over a slot that has already been read. */
  method FilterInPlace(calls: array<ToolCall>, answered: set<string>) returns (n: nat)
    modifies calls
    ensures n <= calls.Length
    ensures calls[..n] == KeepAnswered(old(calls[..]), answered)
  {
    n := 0;
    for i := 0 to calls.Length
      invariant n <= i
      invariant calls[..n] == KeepAnswered(old(calls[..])[..i], answered)
      invariant forall k :: i <= k < calls.Length ==> calls[k] == old(calls[k])
    {
      assert old(calls[..])[..i + 1][..i] == old(calls[..])[..i];
      var tc := calls[i];
      if Answered(tc, answered) {
        calls[n] := tc;
        n := n + 1;
      }
    }
    assert old(calls[..])[..calls.Length] == old(calls[..]);
  }

  function StripAll(out: seq<Message>, last: int, answered: set<string>, n: nat): seq<Message>
    requires n <= |out|
  {
    if n == 0 then []
    else
      var r := StripAll(out, last, answered, n - 1);
      var m := out[n - 1];
      var kept := if n - 1 == last then Some(m) else Strip(m, answered);
      match kept case Some(k) => r + [k] case None => r
  }

  /** Pass 3: strip the unanswered calls of every assistant but the last. */
  method PassThree(out: seq<Message>, answered: set<string>) returns (final: seq<Message>)
    ensures final == StripAll(out, LastAssistant(out), answered, |out|)
  {
    var last := |out| - 1;
    while last >= 0 && out[last].role != Assistant
      invariant -1 <= last < |out|
      invariant forall k :: last < k < |out| ==> out[k].role != Assistant
    {
      last := last - 1;
    }
    final := [];
    for i := 0 to |out|
      invariant final == StripAll(out, LastAssistant(out), answered, i)
    {
      var m := out[i];
      if i != last && m.role == Assistant && m.assistant.Some? && m.assistant.value.toolCalls != [] {
        var calls := m.assistant.value.toolCalls;
        var slots := new ToolCall[|calls|](j requires 0 <= j < |calls| => calls[j]);
        assert slots[..] == calls;
        var n := FilterInPlace(slots, answered);
        var kept := slots[..n];
        m := m.(assistant := Some(m.assistant.value.(toolCalls := kept)));
        if kept == [] {
          if !HasText(m.content) {
            continue;
          }
          m := m.(assistant := None);
        }
      }
      final := final + [m];
    }
  }

  /** Pass 4: arguments cut off in mid-stream become "{}". */
  method PassFour(msgs: seq<Message>, valid: string -> bool) returns (final: seq<Message>)
    ensures final == RepairAll(msgs, valid)
  {
    final := msgs;
    for i := 0 to |msgs|
      invariant |final| == |msgs|
      invariant forall k :: 0 <= k < i ==> final[k] == Repair(msgs[k], valid)
      invariant forall k :: i <= k < |msgs| ==> final[k] == msgs[k]
    {
      var m := final[i];
      if m.role != Assistant || m.assistant.None? {
        continue;
      }
      var calls := m.assistant.value.toolCalls;
      for j := 0 to |calls|
        invariant |calls| == |m.assistant.value.toolCalls|
        invariant forall k :: 0 <= k < j ==> calls[k] == RepairCall(m.assistant.value.toolCalls[k], valid)
        invariant forall k :: j <= k < |calls| ==> calls[k] == m.assistant.value.toolCalls[k]
      {
        if calls[j].arguments == "" || valid(calls[j].arguments) {
          continue;
        }
        calls := calls[j := calls[j].(arguments := "{}")];
      }
      assert calls == RepairCalls(m.assistant.value.toolCalls, valid);
      final := final[i := m.(assistant := Some(m.assistant.value.(toolCalls := calls)))];
    }
  }

  function RepairAll(msgs: seq<Message>, valid: string -> bool): (r: seq<Message>)
    ensures |r| == |msgs| && forall i :: 0 <= i < |r| ==> r[i] == Repair(msgs[i], valid)
  {
    seq(|msgs|, i requires 0 <= i < |msgs| => Repair(msgs[i], valid))
  }

  /** Where message i lands after pass 2. */
  function Position(msgs: seq<Message>, open: set<string>, i: nat): nat
    requires i <= |msgs|
  {
    |DropOrphans(msgs[..i], open)|
  }

  lemma {:induction false} PositionStep(msgs: seq<Message>, open: set<string>, i: nat)
    requires i < |msgs|
    ensures DropOrphans(msgs[..i + 1], open) ==
            if Orphan(msgs[i], open) then DropOrphans(msgs[..i], open) else DropOrphans(msgs[..i], open) + [msgs[i]]
  {
    assert msgs[..i + 1][..i] == msgs[..i];
  }

  lemma {:induction false} DropPrefix(msgs: seq<Message>, open: set<string>, n: nat)
    requires n <= |msgs|
    ensures DropOrphans(msgs[..n], open) <= DropOrphans(msgs, open)
    decreases |msgs| - n
  {
    if n == |msgs| {
      assert msgs[..n] == msgs;
    } else {
      DropPrefix(msgs, open, n + 1);
      PositionStep(msgs, open, n);
    }
  }

  lemma {:induction false} PositionIncreases(msgs: seq<Message>, open: set<string>, i: nat, j: nat)
    requires i < j <= |msgs| && !Orphan(msgs[i], open)
    ensures Position(msgs, open, i) < Position(msgs, open, j)
    decreases j
  {
    PositionStep(msgs, open, j - 1);
    if i < j - 1 {
      PositionIncreases(msgs, open, i, j - 1);
    }
  }

  lemma {:induction false} LastAssistantMoves(msgs: seq<Message>, open: set<string>)
    ensures var last := LastAssistant(msgs);
            LastAssistant(DropOrphans(msgs, open)) == if last < 0 then -1 else Position(msgs, open, last)
    decreases |msgs|
  {
    if msgs != [] {
      var n := |msgs| - 1;
      var front, m := msgs[..n], msgs[n];
      LastAssistantMoves(front, open);
      hide Orphan, LastAssistant;
      var out, last := DropOrphans(front, open), LastAssistant(front);
      assert msgs == front + [m];
      LastAssistantAppend(front, m);
      LastAssistantAppend(out, m);
      if m.role == Assistant {
        AssistantStays(m, open);
      } else if last >= 0 {
        assert msgs[..last] == front[..last];
      }
    }
  }

  lemma LastAssistantAppend(msgs: seq<Message>, m: Message)
    ensures LastAssistant(msgs + [m]) == if m.role == Assistant then |msgs| else LastAssistant(msgs)
  {
  }

  lemma AssistantStays(m: Message, open: set<string>)
    requires m.role == Assistant
    ensures !Orphan(m, open)
  {
  }

  /** Passes 3 and 4 treat a message as the reference definition does. */
  lemma SameFate(msgs: seq<Message>, i: nat, p: nat, valid: string -> bool)
    requires i < |msgs| && !Orphan(msgs[i], OpenIds(msgs)) && p == Position(msgs, OpenIds(msgs), i)
    ensures var c := ContextOf(msgs);
            var out := DropOrphans(msgs, c.open);
            var kept := if p == LastAssistant(out) then Some(msgs[i]) else Strip(msgs[i], c.answered);
            Fate(c, msgs[i], i, valid) == if kept.None? then None else Some(Repair(kept.value, valid))
  {
    var c := ContextOf(msgs);
    var m := msgs[i];
    if m.role == Assistant {
      LastAssistantMoves(msgs, c.open);
      if i < c.last {
        PositionIncreases(msgs, c.open, i, c.last);
      }
    }
  }

  lemma RepairAppend(r: seq<Message>, m: Message, valid: string -> bool)
    ensures RepairAll(r + [m], valid) == RepairAll(r, valid) + [Repair(m, valid)]
  {
  }

  /** After n messages the passes and the reference definition agree. */
  ghost predicate Agree(msgs: seq<Message>, n: nat, valid: string -> bool)
    requires n <= |msgs|
  {
    var c := ContextOf(msgs);
    var out := DropOrphans(msgs, c.open);
    var p := Position(msgs, c.open, n);
    && p <= |out|
    && RepairAll(StripAll(out, LastAssistant(out), c.answered, p), valid) == SanitizedUpto(c, msgs, n, valid)
  }

  lemma AgreeAtOrphan(msgs: seq<Message>, i: nat, valid: string -> bool)
    requires i < |msgs| && Agree(msgs, i, valid) && Orphan(msgs[i], OpenIds(msgs))
    ensures Agree(msgs, i + 1, valid)
  {
    var c := ContextOf(msgs);
    hide LastAssistant, DropOrphans, OpenIds, AnsweredIds, Orphan, Fate, RepairAll, StripAll;
    PositionStep(msgs, c.open, i);
    OrphanFate(c, msgs[i], i, valid);
  }

  lemma AgreeAtKept(msgs: seq<Message>, i: nat, valid: string -> bool)
    requires i < |msgs| && Agree(msgs, i, valid) && !Orphan(msgs[i], OpenIds(msgs))
    ensures Agree(msgs, i + 1, valid)
  {
    hide LastAssistant, DropOrphans, OpenIds, AnsweredIds, Orphan, Fate, RepairAll, Strip, Repair;
    var c := ContextOf(msgs);
    var out := DropOrphans(msgs, c.open);
    var p, last := Position(msgs, c.open, i), LastAssistant(out);
    PositionStep(msgs, c.open, i);
    DropPrefix(msgs, c.open, i + 1);
    assert out[p] == msgs[i];
    SameFate(msgs, i, p, valid);
    var r := StripAll(out, last, c.answered, p);
    var kept := if p == last then Some(msgs[i]) else Strip(msgs[i], c.answered);
    if kept.Some? {
      RepairAppend(r, kept.value, valid);
    }
  }

  lemma {:induction false} PassesAgreeUpto(msgs: seq<Message>, n: nat, valid: string -> bool)
    requires n <= |msgs|
    ensures Agree(msgs, n, valid)
    decreases n
  {
    if n == 0 {
      assert msgs[..0] == [];
    } else {
      hide Agree, Orphan;
      PassesAgreeUpto(msgs, n - 1, valid);
      if Orphan(msgs[n - 1], OpenIds(msgs)) {
        AgreeAtOrphan(msgs, n - 1, valid);
      } else {
        AgreeAtKept(msgs, n - 1, valid);
      }
    }
  }

  lemma OrphanFate(c: Context, m: Message, i: int, valid: string -> bool)
    requires Orphan(m, c.open)
    ensures Fate(c, m, i, valid) == None
  {
  }

  lemma PassesAgree(msgs: seq<Message>, valid: string -> bool)
    ensures var open := OpenIds(msgs);
            var out := DropOrphans(msgs, open);
            RepairAll(StripAll(out, LastAssistant(out), AnsweredIds(msgs, open), |out|), valid) == Sanitized(msgs, valid)
  {
    PassesAgreeUpto(msgs, |msgs|, valid);
    assert msgs[..|msgs|] == msgs;
  }

  /** sanitizeToolSequence: the four passes compute the reference definition. */
  method SanitizeToolSequence(msgs: seq<Message>, valid: string -> bool) returns (final: seq<Message>)
    ensures final == Sanitized(msgs, valid) && exists s :: SanitizedAs(msgs, final, s, valid)
  {
    ghost var s := SanitizedExactly(msgs, valid);
    hide SanitizedAs;
    if msgs == [] {
      return msgs;
    }
    var open := CollectOpen(msgs);
    var out, answered := PassTwo(msgs, open);
    var stripped := PassThree(out, answered);
    final := PassFour(stripped, valid);
    PassesAgree(msgs, valid);
  }

  // ----- What the sanitiser guarantees -----

  /** A surviving message keeps everything but some of its tool calls. */
  ghost predicate SameShell(before: Message, after: Message) {
    && after.role == before.role && after.content == before.content && after.toolCallId == before.toolCallId
    && forall tc :: tc in CallsOf(after) ==> exists t :: t in CallsOf(before) && t.id == tc.id && t.name == tc.name
  }

  /** The only messages that are ever removed. */
  predicate Removable(c: Context, m: Message, i: int) {
    || Orphan(m, c.open)
    || (m.role == Assistant && i != c.last && CallsOf(m) != [] && !HasText(m.content)
        && forall tc :: tc in CallsOf(m) ==> !Answered(tc, c.answered))
  }

  ghost predicate Increasing(s: seq<nat>) {
    forall i, j :: 0 <= i < j < |s| ==> s[i] < s[j]
  }

  lemma {:induction false} SurvivorsParallel(c: Context, msgs: seq<Message>, n: nat, valid: string -> bool)
    requires n <= |msgs|
    ensures var s, r := Survivors(c, msgs, n, valid), SanitizedUpto(c, msgs, n, valid);
            && |s| == |r| && Increasing(s)
            && (forall k :: 0 <= k < |s| ==> s[k] < n && Fate(c, msgs[s[k]], s[k], valid) == Some(r[k]))
            && (forall i :: 0 <= i < n ==> (i in s <==> Fate(c, msgs[i], i, valid).Some?))
    decreases n
  {
    hide Fate;
    if n > 0 {
      SurvivorsParallel(c, msgs, n - 1, valid);
    }
  }

  lemma {:induction false} KeepAnsweredMembers(calls: seq<ToolCall>, answered: set<string>)
    ensures forall tc :: tc in KeepAnswered(calls, answered) <==> tc in calls && Answered(tc, answered)
    ensures (forall tc :: tc in calls ==> Answered(tc, answered)) ==> KeepAnswered(calls, answered) == calls
  {
    hide Answered;
    if calls != [] {
      var n := |calls| - 1;
      var front, last := calls[..n], calls[n];
      KeepAnsweredMembers(front, answered);
      assert calls == front + [last];
      var kept := KeepAnswered(front, answered);
      assert KeepAnswered(calls, answered) == kept + if Answered(last, answered) then [last] else [];
      hide KeepAnswered;
      forall tc ensures tc in KeepAnswered(calls, answered) <==> tc in calls && Answered(tc, answered) {
        assert tc in calls <==> tc in front || tc == last;
      }
    }
  }

  lemma FateShape(c: Context, m: Message, i: int, valid: string -> bool)
    ensures Fate(c, m, i, valid).None? <==> Removable(c, m, i)
    ensures Fate(c, m, i, valid).Some? ==> SameShell(m, Fate(c, m, i, valid).value)
  {
    var kept := KeepAnswered(CallsOf(m), c.answered);
    KeepAnsweredMembers(CallsOf(m), c.answered);
    if kept != [] {
      assert kept[0] in kept;
    }
    if Fate(c, m, i, valid).Some? {
      FateShell(c, m, i, valid);
    }
  }

  /** The calls of a surviving assistant are the repaired calls that were kept. */
  function KeptCalls(c: Context, m: Message, i: int): seq<ToolCall> {
    if i == c.last then CallsOf(m) else KeepAnswered(CallsOf(m), c.answered)
  }

  lemma FateCalls(c: Context, m: Message, i: int, valid: string -> bool)
    requires Fate(c, m, i, valid).Some?
    ensures CallsOf(Fate(c, m, i, valid).value) == RepairCalls(KeptCalls(c, m, i), valid)
  {
  }

  lemma FateHeader(c: Context, m: Message, i: int, valid: string -> bool)
    requires Fate(c, m, i, valid).Some?
    ensures var f := Fate(c, m, i, valid).value; f.role == m.role && f.content == m.content && f.toolCallId == m.toolCallId
  {
  }

  lemma FateShell(c: Context, m: Message, i: int, valid: string -> bool)
    requires Fate(c, m, i, valid).Some?
    ensures SameShell(m, Fate(c, m, i, valid).value)
  {
    KeepAnsweredMembers(CallsOf(m), c.answered);
    FateCalls(c, m, i, valid);
    FateHeader(c, m, i, valid);
    hide Fate, KeepAnswered, Answered, CallsOf, Orphan;
    var calls := CallsOf(Fate(c, m, i, valid).value);
    forall tc | tc in calls ensures exists t :: t in CallsOf(m) && t.id == tc.id && t.name == tc.name {
      var j :| 0 <= j < |calls| && calls[j] == tc;
      assert KeptCalls(c, m, i)[j] in CallsOf(m);
    }
  }

  /** Survivors keep their order and everything but unanswered calls, and only
      orphan tool messages and textless assistants emptied of their calls go. */
  lemma OnlyOrphansAndEmptiedGo(msgs: seq<Message>, valid: string -> bool)
    ensures var c, r := ContextOf(msgs), Sanitized(msgs, valid);
            var s := Survivors(c, msgs, |msgs|, valid);
            && |s| == |r| && Increasing(s)
            && (forall k :: 0 <= k < |s| ==> s[k] < |msgs| && SameShell(msgs[s[k]], r[k]))
            && (forall i :: 0 <= i < |msgs| ==> (i !in s <==> Removable(c, msgs[i], i)))
  {
    var c := ContextOf(msgs);
    SurvivorsParallel(c, msgs, |msgs|, valid);
    forall i | 0 <= i < |msgs|
      ensures Fate(c, msgs[i], i, valid).None? <==> Removable(c, msgs[i], i)
      ensures Fate(c, msgs[i], i, valid).Some? ==> SameShell(msgs[i], Fate(c, msgs[i], i, valid).value)
    {
      FateShape(c, msgs[i], i, valid);
    }
  }

  // The same, stated of the request alone

  /** Some tool message answers this call. */
  ghost predicate HasAnswer(msgs: seq<Message>, tc: ToolCall) {
    exists k :: 0 <= k < |msgs| && AnswersCall(msgs[k], tc)
  }

  predicate AnswersCall(t: Message, tc: ToolCall) {
    t.role == Tool && t.toolCallId.Some? && t.toolCallId.value != "" && tc.id == t.toolCallId
  }

  /** An assistant message other than the last, with calls that nobody answered. */
  ghost predicate Deserted(msgs: seq<Message>, i: nat)
    requires i < |msgs|
  {
    HasCallsAndSuccessor(msgs, i) &&
    forall j :: 0 <= j < |msgs[i].assistant.value.toolCalls| ==> !HasAnswer(msgs, msgs[i].assistant.value.toolCalls[j])
  }

  /** An assistant message other than the last, with calls. */
  ghost predicate HasCallsAndSuccessor(msgs: seq<Message>, i: nat)
    requires i < |msgs|
  {
    && msgs[i].role == Assistant && msgs[i].assistant.Some? && msgs[i].assistant.value.toolCalls != []
    && exists j :: i < j < |msgs| && msgs[j].role == Assistant
  }

  /** A tool message that answers no call of the request. */
  ghost predicate Unasked(msgs: seq<Message>, i: nat)
    requires i < |msgs|
  {
    msgs[i].role == Tool && forall j, q :: IsCallAt(msgs, j, q) ==> !AnswersCall(msgs[i], msgs[j].assistant.value.toolCalls[q])
  }

  predicate IsCallAt(msgs: seq<Message>, j: int, q: int) {
    && 0 <= j < |msgs| && msgs[j].role == Assistant && msgs[j].assistant.Some?
    && 0 <= q < |msgs[j].assistant.value.toolCalls|
  }

  /** The call after repair: arguments that are neither empty nor valid become "{}". */
  predicate RepairedAs(tc: ToolCall, r: ToolCall, valid: string -> bool) {
    && r.id == tc.id && r.name == tc.name
    && r.arguments == if tc.arguments == "" || valid(tc.arguments) then tc.arguments else "{}"
  }

  /** after has exactly the calls of before at the positions `at`, in order and repaired. */
  ghost predicate CallsAt(before: seq<ToolCall>, after: seq<ToolCall>, at: seq<nat>, valid: string -> bool) {
    && |at| == |after| && Increasing(at)
    && forall q :: 0 <= q < |at| ==> at[q] < |before| && RepairedAs(before[at[q]], after[q], valid)
  }

  /** The answered calls, in order and repaired, and no others. */
  ghost predicate AnsweredCallsOf(msgs: seq<Message>, before: seq<ToolCall>, after: seq<ToolCall>, valid: string -> bool) {
    exists at :: CallsAt(before, after, at, valid) && forall j :: 0 <= j < |before| ==> (j in at <==> HasAnswer(msgs, before[j]))
  }

  /** What the assistant part of surviving message i becomes: an assistant other than the
      last that had calls keeps the answered ones, or loses its part when there are none;
      any other assistant keeps all its calls; reasoning stays with the part. */
  ghost predicate PartBecomes(msgs: seq<Message>, i: nat, after: Option<AssistantPart>, valid: string -> bool)
    requires i < |msgs|
  {
    if Deserted(msgs, i) then after.None?
    else if HasCallsAndSuccessor(msgs, i) then
      && after.Some? && after.value.toolCalls != [] && after.value.reasoning == msgs[i].assistant.value.reasoning
      && AnsweredCallsOf(msgs, msgs[i].assistant.value.toolCalls, after.value.toolCalls, valid)
    else if msgs[i].role == Assistant && msgs[i].assistant.Some? then
      && after.Some? && after.value.reasoning == msgs[i].assistant.value.reasoning
      && |after.value.toolCalls| == |msgs[i].assistant.value.toolCalls|
      && forall q :: 0 <= q < |after.value.toolCalls| ==>
           RepairedAs(msgs[i].assistant.value.toolCalls[q], after.value.toolCalls[q], valid)
    else after == msgs[i].assistant
  }

  lemma AnsweredReads(msgs: seq<Message>, i: nat, tc: ToolCall)
    requires i < |msgs| && tc in CallsOf(msgs[i])
    ensures Answered(tc, ContextOf(msgs).answered) <==> HasAnswer(msgs, tc)
  {
    var open := OpenIds(msgs);
    if HasAnswer(msgs, tc) {
      var k :| 0 <= k < |msgs| && AnswersCall(msgs[k], tc);
      assert msgs[i] in msgs && IdOf(tc) in open;
      assert msgs[k] in msgs && !Orphan(msgs[k], open);
      assert AnswerId(msgs[k]) in AnsweredIds(msgs, open);
    }
    if Answered(tc, ContextOf(msgs).answered) {
      var t :| t in msgs && t.role == Tool && !Orphan(t, open) && AnswerId(t) == tc.id.value;
      var k :| 0 <= k < |msgs| && msgs[k] == t;
      assert AnswersCall(msgs[k], tc);
    }
  }

  lemma OrphanReads(msgs: seq<Message>, i: nat)
    requires i < |msgs|
    ensures Orphan(msgs[i], OpenIds(msgs)) <==> Unasked(msgs, i)
  {
    var m, open := msgs[i], OpenIds(msgs);
    if m.role == Tool && !Orphan(m, open) {
      var a, tc :| a in msgs && tc in CallsOf(a) && IdOf(tc) != "" && IdOf(tc) == AnswerId(m);
      var j :| 0 <= j < |msgs| && msgs[j] == a;
      var q :| 0 <= q < |CallsOf(a)| && CallsOf(a)[q] == tc;
      assert IsCallAt(msgs, j, q) && AnswersCall(m, msgs[j].assistant.value.toolCalls[q]);
    }
    if m.role == Tool && !Unasked(msgs, i) {
      var j, q :| IsCallAt(msgs, j, q) && AnswersCall(m, msgs[j].assistant.value.toolCalls[q]);
      CallIsOpen(msgs, j, q);
    }
  }

  lemma LastReads(msgs: seq<Message>, i: nat)
    requires i < |msgs| && msgs[i].role == Assistant
    ensures i == LastAssistant(msgs) <==> !exists j :: i < j < |msgs| && msgs[j].role == Assistant
  {
  }

  lemma CallsAtNext(before: seq<ToolCall>, kept: seq<ToolCall>, at: seq<nat>, tc: ToolCall, valid: string -> bool)
    requires CallsAt(before, RepairCalls(kept, valid), at, valid)
    ensures CallsAt(before + [tc], RepairCalls(kept, valid), at, valid)
    ensures CallsAt(before + [tc], RepairCalls(kept + [tc], valid), at + [|before|], valid)
  {
  }

  /** Where the answered calls are. */
  lemma {:induction false} AnsweredAt(calls: seq<ToolCall>, answered: set<string>, valid: string -> bool) returns (at: seq<nat>)
    ensures CallsAt(calls, RepairCalls(KeepAnswered(calls, answered), valid), at, valid)
    ensures forall j :: j in at ==> j < |calls|
    ensures forall j :: 0 <= j < |calls| ==> (j in at <==> Answered(calls[j], answered))
  {
    hide Answered;
    at := [];
    if calls != [] {
      hide CallsAt, RepairCalls;
      var n := |calls| - 1;
      at := AnsweredAt(calls[..n], answered, valid);
      CallsAtNext(calls[..n], KeepAnswered(calls[..n], answered), at, calls[n], valid);
      assert calls == calls[..n] + [calls[n]];
      if Answered(calls[n], answered) {
        at := at + [n];
      }
    }
  }

  lemma FatePart(c: Context, m: Message, i: int, valid: string -> bool)
    requires Fate(c, m, i, valid).Some?
    ensures var after := Fate(c, m, i, valid).value.assistant;
            if m.role != Assistant || m.assistant.None? then after == m.assistant
            else if i == c.last || m.assistant.value.toolCalls == [] then
              after == Some(m.assistant.value.(toolCalls := RepairCalls(m.assistant.value.toolCalls, valid)))
            else
              var kept := KeepAnswered(m.assistant.value.toolCalls, c.answered);
              after == if kept == [] then None else Some(m.assistant.value.(toolCalls := RepairCalls(kept, valid)))
  {
    hide KeepAnswered;
  }

  /** Which calls are kept, in the words of the request. */
  lemma KeptReads(msgs: seq<Message>, i: nat, valid: string -> bool)
    requires i < |msgs| && msgs[i].role == Assistant && msgs[i].assistant.Some?
    ensures var calls := msgs[i].assistant.value.toolCalls;
            var kept := KeepAnswered(calls, ContextOf(msgs).answered);
            && AnsweredCallsOf(msgs, calls, RepairCalls(kept, valid), valid)
            && (kept == [] <==> forall j :: 0 <= j < |calls| ==> !HasAnswer(msgs, calls[j]))
  {
    var answered, calls := ContextOf(msgs).answered, msgs[i].assistant.value.toolCalls;
    var kept := KeepAnswered(calls, answered);
    var at := AnsweredAt(calls, answered, valid);
    forall j | 0 <= j < |calls| ensures Answered(calls[j], answered) <==> HasAnswer(msgs, calls[j]) {
      assert calls[j] in CallsOf(msgs[i]);
      AnsweredReads(msgs, i, calls[j]);
    }
    hide ContextOf, KeepAnswered, Answered, HasAnswer;
    assert |at| == |kept|;
    if kept != [] {
      assert at[0] in at && HasAnswer(msgs, calls[at[0]]);
    }
  }

  lemma PartWhole(msgs: seq<Message>, i: nat, valid: string -> bool)
    requires i < |msgs| && !HasCallsAndSuccessor(msgs, i)
    ensures PartBecomes(msgs, i, Repair(msgs[i], valid).assistant, valid)
  {
    hide HasCallsAndSuccessor, HasAnswer;
  }

  lemma PartStripped(msgs: seq<Message>, i: nat, valid: string -> bool)
    requires i < |msgs| && HasCallsAndSuccessor(msgs, i)
    ensures var part := msgs[i].assistant.value;
            var kept := KeepAnswered(part.toolCalls, ContextOf(msgs).answered);
            PartBecomes(msgs, i, if kept == [] then None else Some(part.(toolCalls := RepairCalls(kept, valid))), valid)
  {
    KeptReads(msgs, i, valid);
    hide KeepAnswered, AnsweredCallsOf, HasAnswer, ContextOf;
  }

  lemma PartReads(msgs: seq<Message>, i: nat, valid: string -> bool)
    requires i < |msgs| && Fate(ContextOf(msgs), msgs[i], i, valid).Some?
    ensures PartBecomes(msgs, i, Fate(ContextOf(msgs), msgs[i], i, valid).value.assistant, valid)
  {
    var c, m := ContextOf(msgs), msgs[i];
    FatePart(c, m, i, valid);
    assert c.last == LastAssistant(msgs);
    hide Fate, KeepAnswered, ContextOf, LastAssistant, RepairCall, PartBecomes;
    if m.role == Assistant && m.assistant.Some? {
      LastReads(msgs, i);
    }
    if HasCallsAndSuccessor(msgs, i) {
      PartStripped(msgs, i, valid);
    } else {
      PartWhole(msgs, i, valid);
    }
  }

  /** The sanitised request, stated of the request alone: tool messages that answer nothing
      and textless assistants whose calls nobody answered are gone, the rest is there in
      order, with role, content and id as they were, and the assistant part as it becomes. */
  ghost predicate SanitizedAs(msgs: seq<Message>, r: seq<Message>, s: seq<nat>, valid: string -> bool) {
    && |s| == |r| && Increasing(s)
    && (forall i :: 0 <= i < |msgs| ==>
          (i in s <==> !Unasked(msgs, i) && !(Deserted(msgs, i) && !HasText(msgs[i].content))))
    && (forall k :: 0 <= k < |s| ==>
          s[k] < |msgs| && Heads(msgs[s[k]], r[k]) && PartBecomes(msgs, s[k], r[k].assistant, valid))
  }

  lemma SanitizedExactly(msgs: seq<Message>, valid: string -> bool) returns (s: seq<nat>)
    ensures SanitizedAs(msgs, Sanitized(msgs, valid), s, valid)
  {
    var c := ContextOf(msgs);
    SurvivorsParallel(c, msgs, |msgs|, valid);
    s := Survivors(c, msgs, |msgs|, valid);
    assert Sanitized(msgs, valid) == SanitizedUpto(c, msgs, |msgs|, valid);
    hide Survivors, ContextOf, SanitizedUpto, Sanitized, PartBecomes, Fate, Increasing, Unasked, Deserted, Removable, HasText;
    forall i | 0 <= i < |msgs|
      ensures Fate(c, msgs[i], i, valid).Some? <==> !Unasked(msgs, i) && !(Deserted(msgs, i) && !HasText(msgs[i].content))
    {
      FateShape(c, msgs[i], i, valid);
      RemovableReads(msgs, i);
    }
    forall k | 0 <= k < |s|
      ensures Heads(msgs[s[k]], Sanitized(msgs, valid)[k]) && PartBecomes(msgs, s[k], Sanitized(msgs, valid)[k].assistant, valid)
    {
      FateHeader(c, msgs[s[k]], s[k], valid);
      PartReads(msgs, s[k], valid);
    }
  }

  /** Same role, content and answered id. */
  predicate Heads(m: Message, after: Message) {
    after.role == m.role && after.content == m.content && after.toolCallId == m.toolCallId
  }

  lemma RemovableReads(msgs: seq<Message>, i: nat)
    requires i < |msgs|
    ensures Removable(ContextOf(msgs), msgs[i], i) <==> Unasked(msgs, i) || (Deserted(msgs, i) && !HasText(msgs[i].content))
  {
    var c, m := ContextOf(msgs), msgs[i];
    OrphanReads(msgs, i);
    if m.role == Assistant {
      LastReads(msgs, i);
      forall tc | tc in CallsOf(m) ensures Answered(tc, c.answered) <==> HasAnswer(msgs, tc) {
        AnsweredReads(msgs, i, tc);
      }
    }
  }

  /** Message i survives as some message of the result. */
  lemma FindSurvivor(msgs: seq<Message>, i: nat, valid: string -> bool) returns (k: nat)
    requires i < |msgs| && Fate(ContextOf(msgs), msgs[i], i, valid).Some?
    ensures k < |Sanitized(msgs, valid)| && Fate(ContextOf(msgs), msgs[i], i, valid) == Some(Sanitized(msgs, valid)[k])
  {
    SurvivorsParallel(ContextOf(msgs), msgs, |msgs|, valid);
    var s := Survivors(ContextOf(msgs), msgs, |msgs|, valid);
    k :| 0 <= k < |s| && s[k] == i;
  }

  /** Result k comes from some message. */
  lemma FindSource(msgs: seq<Message>, k: nat, valid: string -> bool) returns (i: nat)
    requires k < |Sanitized(msgs, valid)|
    ensures i < |msgs| && Fate(ContextOf(msgs), msgs[i], i, valid) == Some(Sanitized(msgs, valid)[k])
    ensures i == ContextOf(msgs).last ==> k == LastAssistant(Sanitized(msgs, valid))
  {
    var c, r := ContextOf(msgs), Sanitized(msgs, valid);
    SurvivorsParallel(c, msgs, |msgs|, valid);
    var s := Survivors(c, msgs, |msgs|, valid);
    i := s[k];
    if i == c.last {
      forall j | k < j < |r| ensures r[j].role != Assistant {
        assert Fate(c, msgs[s[j]], s[j], valid) == Some(r[j]);
      }
    }
  }

  /** Every tool message of the result answers a call of an assistant in it. */
  ghost predicate ToolsOpened(r: seq<Message>) {
    forall k :: 0 <= k < |r| && r[k].role == Tool ==> AnswerId(r[k]) != "" && AnswerId(r[k]) in OpenIds(r)
  }

  /** Every call of an assistant other than the last is answered in the result. */
  ghost predicate CallsAnswered(r: seq<Message>) {
    forall k :: 0 <= k < |r| && k != LastAssistant(r) ==>
      forall tc :: tc in CallsOf(r[k]) ==> tc.id.Some? && AnsweredBy(r, tc.id.value)
  }

  ghost predicate AnsweredBy(r: seq<Message>, id: string) {
    id != "" && exists t :: t in r && t.role == Tool && AnswerId(t) == id
  }

  ghost predicate ArgumentsValid(r: seq<Message>, valid: string -> bool) {
    forall k :: 0 <= k < |r| ==> forall tc :: tc in CallsOf(r[k]) ==> tc.arguments == "" || valid(tc.arguments)
  }

  /** A call that counts as answered is still on its assistant in the result. */
  lemma AnsweredCallStays(msgs: seq<Message>, j: nat, tc: ToolCall, valid: string -> bool)
    requires j < |msgs| && tc in CallsOf(msgs[j]) && Answered(tc, ContextOf(msgs).answered)
    ensures IdOf(tc) != "" ==> IdOf(tc) in OpenIds(Sanitized(msgs, valid))
  {
    var c, r := ContextOf(msgs), Sanitized(msgs, valid);
    hide ContextOf, Sanitized, Fate, OpenIds, KeepAnswered;
    KeepAnsweredMembers(CallsOf(msgs[j]), c.answered);
    FateShape(c, msgs[j], j, valid);
    var p := FindSurvivor(msgs, j, valid);
    FateCalls(c, msgs[j], j, valid);
    var kept := KeptCalls(c, msgs[j], j);
    var q :| 0 <= q < |kept| && kept[q] == tc;
    assert CallsOf(r[p])[q] == RepairCall(tc, valid);
    assert IdOf(CallsOf(r[p])[q]) == IdOf(tc);
    CallIsOpen(r, p, q);
  }

  lemma CallIsOpen(r: seq<Message>, p: nat, q: nat)
    requires p < |r| && q < |CallsOf(r[p])|
    ensures IdOf(CallsOf(r[p])[q]) != "" ==> IdOf(CallsOf(r[p])[q]) in OpenIds(r)
  {
    assert r[p] in r && CallsOf(r[p])[q] in CallsOf(r[p]);
  }

  lemma ToolSurvives(msgs: seq<Message>, k: nat, valid: string -> bool)
    requires k < |Sanitized(msgs, valid)| && Sanitized(msgs, valid)[k].role == Tool
    ensures var r := Sanitized(msgs, valid); AnswerId(r[k]) != "" && AnswerId(r[k]) in OpenIds(r)
  {
    var c := ContextOf(msgs);
    var i := FindSource(msgs, k, valid);
    hide Sanitized, KeepAnswered, Strip;
    ToolFate(c, msgs[i], i, valid);
    var id := AnswerId(msgs[i]);
    var a, tc :| a in msgs && tc in CallsOf(a) && IdOf(tc) != "" && IdOf(tc) == id;
    var j :| 0 <= j < |msgs| && msgs[j] == a;
    assert Answered(tc, c.answered);
    AnsweredCallStays(msgs, j, tc, valid);
  }

  lemma ToolFate(c: Context, m: Message, i: int, valid: string -> bool)
    requires Fate(c, m, i, valid).Some? && Fate(c, m, i, valid).value.role == Tool
    ensures m.role == Tool && !Orphan(m, c.open) && Fate(c, m, i, valid) == Some(m)
  {
  }

  lemma CallSurvives(msgs: seq<Message>, k: nat, tc: ToolCall, valid: string -> bool)
    requires var r := Sanitized(msgs, valid); k < |r| && k != LastAssistant(r) && tc in CallsOf(r[k])
    ensures tc.id.Some? && AnsweredBy(Sanitized(msgs, valid), tc.id.value)
  {
    var c, r := ContextOf(msgs), Sanitized(msgs, valid);
    var i := FindSource(msgs, k, valid);
    KeepAnsweredMembers(CallsOf(msgs[i]), c.answered);
    FateCalls(c, msgs[i], i, valid);
    var kept := KeepAnswered(CallsOf(msgs[i]), c.answered);
    var q :| 0 <= q < |CallsOf(r[k])| && CallsOf(r[k])[q] == tc;
    assert tc == RepairCall(kept[q], valid) && kept[q] in kept;
    hide Sanitized, Fate, KeepAnswered, OpenIds;
    AnswerSurvives(msgs, tc.id.value, valid);
  }

  /** An id that counts as answered is answered in the result. */
  lemma AnswerSurvives(msgs: seq<Message>, id: string, valid: string -> bool)
    requires id in ContextOf(msgs).answered
    ensures AnsweredBy(Sanitized(msgs, valid), id)
  {
    var c, r := ContextOf(msgs), Sanitized(msgs, valid);
    hide Sanitized, KeepAnswered, OpenIds;
    var t :| t in msgs && t.role == Tool && !Orphan(t, c.open) && AnswerId(t) == id;
    var j :| 0 <= j < |msgs| && msgs[j] == t;
    var p := FindSurvivor(msgs, j, valid);
    assert r[p] == t && r[p] in r;
  }

  /** The sanitised request is closed: no tool message without its call, no call
      of an earlier assistant without its answer, no broken argument string. */
  lemma SanitizedIsClosed(msgs: seq<Message>, valid: string -> bool)
    requires valid("{}")
    ensures var r := Sanitized(msgs, valid); ToolsOpened(r) && CallsAnswered(r) && ArgumentsValid(r, valid)
  {
    hide Sanitized, CallsOf, OpenIds, LastAssistant;
    var r := Sanitized(msgs, valid);
    forall k | 0 <= k < |r| && r[k].role == Tool ensures AnswerId(r[k]) != "" && AnswerId(r[k]) in OpenIds(r) {
      ToolSurvives(msgs, k, valid);
    }
    forall k, tc | 0 <= k < |r| && k != LastAssistant(r) && tc in CallsOf(r[k])
      ensures tc.id.Some? && AnsweredBy(r, tc.id.value)
    {
      CallSurvives(msgs, k, tc, valid);
    }
    forall k, tc | 0 <= k < |r| && tc in CallsOf(r[k]) ensures tc.arguments == "" || valid(tc.arguments) {
      ArgumentsRepaired(msgs, k, tc, valid);
    }
  }

  lemma ArgumentsRepaired(msgs: seq<Message>, k: nat, tc: ToolCall, valid: string -> bool)
    requires valid("{}") && k < |Sanitized(msgs, valid)| && tc in CallsOf(Sanitized(msgs, valid)[k])
    ensures tc.arguments == "" || valid(tc.arguments)
  {
    var i := FindSource(msgs, k, valid);
    hide Sanitized, ContextOf, Fate, KeptCalls;
    FateCalls(ContextOf(msgs), msgs[i], i, valid);
  }

  lemma {:induction false} UnchangedUpto(c: Context, r: seq<Message>, n: nat, valid: string -> bool)
    requires n <= |r| && forall k :: 0 <= k < |r| ==> Fate(c, r[k], k, valid) == Some(r[k])
    ensures SanitizedUpto(c, r, n, valid) == r[..n]
    decreases n
  {
    hide Fate;
    if n > 0 {
      UnchangedUpto(c, r, n - 1, valid);
      assert r[..n] == r[..n - 1] + [r[n - 1]];
    }
  }

  /** A closed request passes through unchanged. */
  lemma ClosedIsFixed(r: seq<Message>, valid: string -> bool)
    requires ToolsOpened(r) && CallsAnswered(r) && ArgumentsValid(r, valid)
    ensures Sanitized(r, valid) == r
  {
    var c := ContextOf(r);
    forall k | 0 <= k < |r| ensures Fate(c, r[k], k, valid) == Some(r[k]) {
      RepairFixed(r[k], valid);
      if k != c.last && r[k].role != Tool {
        forall tc | tc in CallsOf(r[k]) ensures Answered(tc, c.answered) {
          var t :| t in r && t.role == Tool && AnswerId(t) == tc.id.value;
          var j :| 0 <= j < |r| && r[j] == t;
        }
        KeepAnsweredMembers(CallsOf(r[k]), c.answered);
      }
    }
    UnchangedUpto(c, r, |r|, valid);
  }

  lemma RepairFixed(m: Message, valid: string -> bool)
    requires forall tc :: tc in CallsOf(m) ==> tc.arguments == "" || valid(tc.arguments)
    ensures Repair(m, valid) == m
  {
    assert RepairCalls(CallsOf(m), valid) == CallsOf(m);
  }

  /** Sanitising twice is sanitising once. */
  lemma SanitizeIdempotent(msgs: seq<Message>, valid: string -> bool)
    requires valid("{}")
    ensures Sanitized(Sanitized(msgs, valid), valid) == Sanitized(msgs, valid)
  {
    SanitizedIsClosed(msgs, valid);
    ClosedIsFixed(Sanitized(msgs, valid), valid);
  }

  /** Exactly the closed requests are left alone. */
  lemma FixedIffClosed(msgs: seq<Message>, valid: string -> bool)
    requires valid("{}")
    ensures Sanitized(msgs, valid) == msgs <==> ToolsOpened(msgs) && CallsAnswered(msgs) && ArgumentsValid(msgs, valid)
  {
    SanitizedIsClosed(msgs, valid);
    if ToolsOpened(msgs) && CallsAnswered(msgs) && ArgumentsValid(msgs, valid) {
      ClosedIsFixed(msgs, valid);
    }
  }

  // ----- Cache breakpoints -----

  const MAX_BREAKPOINTS := 4

  /** A content part, by message and block. */
  datatype Place = Place(msg: nat, block: nat)

  predicate Before(p: Place, q: Place) {
    p.msg < q.msg || (p.msg == q.msg && p.block < q.block)
  }

  function BlocksAt(msgs: seq<Message>, m: nat): seq<Block> {
    if m < |msgs| && msgs[m].content.Blocks? then msgs[m].content.blocks else []
  }

  predicate IsCached(b: Block) {
    !b.TextBlock? && b.cached
  }

  predicate CachedAt(msgs: seq<Message>, p: Place) {
    p.block < |BlocksAt(msgs, p.msg)| && IsCached(BlocksAt(msgs, p.msg)[p.block])
  }

  function WithoutCache(b: Block): Block {
    if b.TextBlock? then b else b.(cached := false)
  }

  function ClearAt(msgs: seq<Message>, p: Place): seq<Message>
    requires CachedAt(msgs, p)
  {
    var m := msgs[p.msg];
    msgs[p.msg := m.(content := Blocks(m.content.blocks[p.block := WithoutCache(m.content.blocks[p.block])]))]
  }

  /** All cached parts before a place, in order. */
  ghost predicate Listed(msgs: seq<Message>, refs: seq<Place>, end: Place) {
    && (forall i, j :: 0 <= i < j < |refs| ==> Before(refs[i], refs[j]))
    && (forall p :: p in refs <==> CachedAt(msgs, p) && Before(p, end))
  }

  /** Apart from some cache marks the requests are the same. */
  ghost predicate SameButMarks(a: seq<Message>, b: seq<Message>) {
    |a| == |b| && forall m :: 0 <= m < |a| ==> SameMessageButMarks(a[m], b[m])
  }

  ghost predicate SameMessageButMarks(a: Message, b: Message) {
    && b == a.(content := b.content) && a.content.Blocks? == b.content.Blocks?
    && (!a.content.Blocks? ==> a.content == b.content)
    && (a.content.Blocks? ==>
          && |a.content.blocks| == |b.content.blocks|
          && forall i :: 0 <= i < |a.content.blocks| ==> WithoutCache(a.content.blocks[i]) == WithoutCache(b.content.blocks[i]))
  }

  method CollectCached(msgs: seq<Message>) returns (refs: seq<Place>)
    ensures Listed(msgs, refs, Place(|msgs|, 0))
  {
    refs := [];
    for m := 0 to |msgs|
      invariant Listed(msgs, refs, Place(m, 0))
    {
      var blocks := BlocksAt(msgs, m);
      for b := 0 to |blocks|
        invariant Listed(msgs, refs, Place(m, b))
      {
        if IsCached(blocks[b]) {
          refs := refs + [Place(m, b)];
        }
      }
    }
  }

  lemma ClearOne(before: seq<Message>, msgs: seq<Message>, p: Place)
    requires CachedAt(msgs, p) && SameButMarks(before, msgs)
    ensures SameButMarks(before, ClearAt(msgs, p))
    ensures forall q :: CachedAt(ClearAt(msgs, p), q) <==> CachedAt(msgs, q) && q != p
  {
  }

  /** refs are the marks of msgs in order; r is msgs with the last few of them. */
  ghost predicate Capped(msgs: seq<Message>, r: seq<Message>, refs: seq<Place>) {
    && Listed(msgs, refs, Place(|msgs|, 0)) && SameButMarks(msgs, r)
    && forall p :: CachedAt(r, p) <==> p in refs[Max(0, |refs| - MAX_BREAKPOINTS)..]
  }

  /** capImageCacheBreakpoints: the marks on the most recent parts stay, at most four. */
  method CapCacheBreakpoints(msgs: seq<Message>) returns (r: seq<Message>)
    ensures exists refs :: Capped(msgs, r, refs)
  {
    var all := CollectCached(msgs);
    r := msgs;
    if |all| <= MAX_BREAKPOINTS {
      assert all[0..] == all;
      assert Capped(msgs, r, all);
      return;
    }
    var drop := |all| - MAX_BREAKPOINTS;
    for i := 0 to drop
      invariant SameButMarks(msgs, r)
      invariant forall p :: CachedAt(r, p) <==> p in all[i..]
    {
      assert all[i] in all[i..] && all[i..] == [all[i]] + all[i + 1..];
      ClearOne(msgs, r, all[i]);
      hide SameButMarks, CachedAt, ClearAt;
      r := ClearAt(r, all[i]);
    }
    assert Capped(msgs, r, all);
  }

  /** Every mark that stays is later than every mark that goes. */
  lemma NewestMarksStay(msgs: seq<Message>, refs: seq<Place>, drop: nat, p: Place, q: Place)
    requires Listed(msgs, refs, Place(|msgs|, 0)) && drop <= |refs|
    requires p in refs[..drop] && q in refs[drop..]
    ensures Before(p, q) && |refs[drop..]| == |refs| - drop
  {
  }
}

/** Consumption of one provider stream (consumeStream and accumulateToolCall in
    internal/provider/bifrost/adapter.go). */
module Stream {
  import opened Common

  datatype Usage = Usage(input: int, output: int, cacheRead: int, cacheWrite: int, thinking: int)

  datatype CallDelta = CallDelta(index: nat, id: Option<string>, name: Option<string>, arguments: string)

  datatype Delta = Delta(content: Option<string>, reasoning: Option<string>, calls: seq<CallDelta>)

  datatype Choice = Choice(delta: Option<Delta>, finish: Option<string>)

  datatype Chunk =
    | Nothing
    | Failure(error: string)
    | Response(model: string, usage: Option<Usage>, choice: Option<Choice>)

  datatype Event =
    | TextEvent(text: string)
    | ToolUse(id: string, name: string, input: string)
    | MessageEnd(stopReason: string, usage: Option<Usage>, model: string, reasoning: string)
    | ErrorEvent(error: string)

  function OrEmpty(s: Option<string>): string {
    if s.Some? then s.value else ""
  }

  function DeltaOf(c: Chunk): Delta {
    if c.Response? && c.choice.Some? && c.choice.value.delta.Some? then c.choice.value.delta.value else Delta(None, None, [])
  }

  function FinishOf(c: Chunk): Option<string> {
    if c.Response? && c.choice.Some? then c.choice.value.finish else None
  }

  function UsageOf(c: Chunk): Option<Usage> {
    if c.Response? then c.usage else None
  }

  function MapFinish(reason: string): string {
    if reason == "stop" then "end_turn"
    else if reason == "length" then "max_tokens"
    else if reason == "tool_calls" then "tool_use"
    else reason
  }

  // ----- What a run of chunks says -----

  function Texts(cs: seq<Chunk>): seq<Event> {
    if cs == [] then []
    else
      var t := OrEmpty(DeltaOf(cs[|cs| - 1]).content);
      Texts(cs[..|cs| - 1]) + if t != "" then [TextEvent(t)] else []
  }

  function Reasoning(cs: seq<Chunk>, thinking: bool): string {
    if cs == [] then ""
    else Reasoning(cs[..|cs| - 1], thinking) + if thinking then OrEmpty(DeltaOf(cs[|cs| - 1]).reasoning) else ""
  }

  function Deltas(cs: seq<Chunk>): seq<CallDelta> {
    if cs == [] then [] else Deltas(cs[..|cs| - 1]) + DeltaOf(cs[|cs| - 1]).calls
  }

  function FirstUsage(cs: seq<Chunk>): Option<Usage> {
    if cs == [] then None
    else
      var earlier := FirstUsage(cs[..|cs| - 1]);
      if earlier.Some? then earlier else UsageOf(cs[|cs| - 1])
  }

  function LastFinish(cs: seq<Chunk>): Option<string> {
    if cs == [] then None
    else if FinishOf(cs[|cs| - 1]).Some? then FinishOf(cs[|cs| - 1])
    else LastFinish(cs[..|cs| - 1])
  }

  function FirstModel(cs: seq<Chunk>): string {
    if cs == [] then ""
    else
      var earlier, c := FirstModel(cs[..|cs| - 1]), cs[|cs| - 1];
      if earlier != "" then earlier else if c.Response? then c.model else ""
  }

  /** What a run of chunks says is what its parts say, one after the other. */
  lemma {:induction false} TextsInOrder(a: seq<Chunk>, b: seq<Chunk>)
    ensures Texts(a + b) == Texts(a) + Texts(b)
    decreases |b|
  {
    hide Reasoning, Deltas;
    if b == [] {
      assert a + b == a;
    } else {
      assert (a + b)[..|a + b| - 1] == a + b[..|b| - 1];
      TextsInOrder(a, b[..|b| - 1]);
    }
  }

  lemma {:induction false} ReasoningInOrder(a: seq<Chunk>, b: seq<Chunk>, thinking: bool)
    ensures Reasoning(a + b, thinking) == Reasoning(a, thinking) + Reasoning(b, thinking)
    decreases |b|
  {
    hide Texts, Deltas;
    if b == [] {
      assert a + b == a;
    } else {
      assert (a + b)[..|a + b| - 1] == a + b[..|b| - 1];
      ReasoningInOrder(a, b[..|b| - 1], thinking);
    }
  }

  lemma {:induction false} DeltasInOrder(a: seq<Chunk>, b: seq<Chunk>)
    ensures Deltas(a + b) == Deltas(a) + Deltas(b)
    decreases |b|
  {
    hide Texts, Reasoning;
    if b == [] {
      assert a + b == a;
    } else {
      assert (a + b)[..|a + b| - 1] == a + b[..|b| - 1];
      DeltasInOrder(a, b[..|b| - 1]);
    }
  }

  /** Text, reasoning and pieces of tool calls come out in the order of the chunks. */
  lemma SaidInOrder(a: seq<Chunk>, b: seq<Chunk>, thinking: bool)
    ensures Texts(a + b) == Texts(a) + Texts(b)
    ensures Reasoning(a + b, thinking) == Reasoning(a, thinking) + Reasoning(b, thinking)
    ensures Deltas(a + b) == Deltas(a) + Deltas(b)
  {
    hide Texts, Reasoning, Deltas;
    TextsInOrder(a, b);
    ReasoningInOrder(a, b, thinking);
    DeltasInOrder(a, b);
  }

  /** A chunk with a delta says the text of the delta, unless that is empty, its reasoning
      when that is asked for, and its pieces of tool calls. */
  lemma ChunkSays(model: string, usage: Option<Usage>, d: Delta, finish: Option<string>, thinking: bool)
    ensures var cs := [Response(model, usage, Some(Choice(Some(d), finish)))];
            && (d.content.Some? && d.content.value != "" ==> Texts(cs) == [TextEvent(d.content.value)])
            && (d.content.None? || d.content.value == "" ==> Texts(cs) == [])
            && (thinking && d.reasoning.Some? ==> Reasoning(cs, thinking) == d.reasoning.value)
            && (!thinking || d.reasoning.None? ==> Reasoning(cs, thinking) == "")
            && Deltas(cs) == d.calls
  {
    var cs := [Response(model, usage, Some(Choice(Some(d), finish)))];
    assert cs[..0] == [];
  }

  /** A chunk without a delta says nothing. */
  lemma ChunkIsSilent(c: Chunk, thinking: bool)
    requires !(c.Response? && c.choice.Some? && c.choice.value.delta.Some?)
    ensures Texts([c]) == [] && Reasoning([c], thinking) == "" && Deltas([c]) == []
  {
    assert [c][..0] == [];
  }

  predicate Reports(c: Chunk, u: Usage) {
    c.Response? && c.usage == Some(u)
  }

  predicate Finishes(c: Chunk, reason: string) {
    c.Response? && c.choice.Some? && c.choice.value.finish == Some(reason)
  }

  predicate Names(c: Chunk, model: string) {
    c.Response? && c.model == model && model != ""
  }

  /** The usage is the first one reported. */
  lemma {:induction false} UsageReads(cs: seq<Chunk>, u: Usage)
    ensures FirstUsage(cs) == Some(u) <==>
              exists k :: 0 <= k < |cs| && Reports(cs[k], u) && forall j, v :: 0 <= j < k ==> !Reports(cs[j], v)
  {
    if cs != [] {
      var n := |cs| - 1;
      UsageReads(cs[..n], u);
      if FirstUsage(cs[..n]).Some? {
        UsageReads(cs[..n], FirstUsage(cs[..n]).value);
      } else {
        NoUsage(cs[..n]);
      }
      assert forall k :: 0 <= k < n ==> cs[..n][k] == cs[k];
    }
  }

  lemma {:induction false} NoUsage(cs: seq<Chunk>)
    ensures FirstUsage(cs).None? <==> forall j, v :: 0 <= j < |cs| ==> !Reports(cs[j], v)
  {
    if cs != [] {
      var n := |cs| - 1;
      NoUsage(cs[..n]);
      assert forall k :: 0 <= k < n ==> cs[..n][k] == cs[k];
      if UsageOf(cs[n]).Some? {
        assert Reports(cs[n], UsageOf(cs[n]).value);
      }
    }
  }

  /** The finish reason is the last one given. */
  lemma {:induction false} FinishReads(cs: seq<Chunk>, reason: string)
    ensures LastFinish(cs) == Some(reason) <==>
              exists k :: 0 <= k < |cs| && Finishes(cs[k], reason) && forall j, r :: k < j < |cs| ==> !Finishes(cs[j], r)
  {
    if cs != [] {
      var n := |cs| - 1;
      FinishReads(cs[..n], reason);
      assert forall k :: 0 <= k < n ==> cs[..n][k] == cs[k];
      if FinishOf(cs[n]).Some? {
        assert Finishes(cs[n], FinishOf(cs[n]).value);
      }
    }
  }

  /** The model is the first one named. */
  lemma {:induction false} ModelReads(cs: seq<Chunk>, model: string)
    requires model != ""
    ensures FirstModel(cs) == model <==>
              exists k :: 0 <= k < |cs| && Names(cs[k], model) && forall j, m :: 0 <= j < k ==> !Names(cs[j], m)
  {
    if cs != [] {
      var n := |cs| - 1;
      ModelReads(cs[..n], model);
      if FirstModel(cs[..n]) != "" {
        ModelReads(cs[..n], FirstModel(cs[..n]));
      } else {
        NoModel(cs[..n]);
      }
      assert forall k :: 0 <= k < n ==> cs[..n][k] == cs[k];
    }
  }

  lemma {:induction false} NoModel(cs: seq<Chunk>)
    ensures FirstModel(cs) == "" <==> forall j, m :: 0 <= j < |cs| ==> !Names(cs[j], m)
  {
    if cs != [] {
      var n := |cs| - 1;
      NoModel(cs[..n]);
      assert forall k :: 0 <= k < n ==> cs[..n][k] == cs[k];
      if cs[n].Response? {
        assert cs[n].model != "" ==> Names(cs[n], cs[n].model);
      }
    }
  }

  // ----- Tool calls -----

  datatype Acc = Acc(index: nat, id: string, name: string, arguments: string)

  /** Where index x is in the list, or its length. */
  function Find(accs: seq<Acc>, x: nat): (k: nat)
    ensures k <= |accs| && (k < |accs| ==> accs[k].index == x) && forall i :: 0 <= i < k ==> accs[i].index != x
  {
    if accs == [] then 0 else if accs[0].index == x then 0 else 1 + Find(accs[1..], x)
  }

  function Accumulated(accs: seq<Acc>, d: CallDelta): seq<Acc> {
    var k := Find(accs, d.index);
    if k < |accs| then accs[k := accs[k].(arguments := accs[k].arguments + d.arguments)]
    else accs + [Acc(d.index, OrEmpty(d.id), OrEmpty(d.name), d.arguments)]
  }

  function Accs(ds: seq<CallDelta>): seq<Acc> {
    if ds == [] then [] else Accumulated(Accs(ds[..|ds| - 1]), ds[|ds| - 1])
  }

  method Accumulate(accs: seq<Acc>, d: CallDelta) returns (r: seq<Acc>)
    ensures r == Accumulated(accs, d)
  {
    for i := 0 to |accs|
      invariant forall k :: 0 <= k < i ==> accs[k].index != d.index
    {
      if accs[i].index == d.index {
        return accs[i := accs[i].(arguments := accs[i].arguments + d.arguments)];
      }
    }
    r := accs + [Acc(d.index, OrEmpty(d.id), OrEmpty(d.name), d.arguments)];
  }

  /** All arguments sent for one index, joined in order. */
  function ArgumentsOf(ds: seq<CallDelta>, x: nat): string {
    if ds == [] then ""
    else ArgumentsOf(ds[..|ds| - 1], x) + if ds[|ds| - 1].index == x then ds[|ds| - 1].arguments else ""
  }

  /** Where index x is first mentioned, or the length. */
  function FirstPos(ds: seq<CallDelta>, x: nat): (p: nat)
    ensures p <= |ds| && (p < |ds| ==> ds[p].index == x) && forall q :: 0 <= q < p ==> ds[q].index != x
  {
    if ds == [] then 0
    else
      var p := FirstPos(ds[..|ds| - 1], x);
      if p < |ds| - 1 || ds[|ds| - 1].index == x then p else |ds|
  }

  ghost predicate AccOk(ds: seq<CallDelta>, a: Acc) {
    var p := FirstPos(ds, a.index);
    p < |ds| && a.id == OrEmpty(ds[p].id) && a.name == OrEmpty(ds[p].name) && a.arguments == ArgumentsOf(ds, a.index)
  }

  ghost predicate HasAcc(accs: seq<Acc>, x: nat) {
    exists a :: a in accs && a.index == x
  }

  /** One entry per index, in the order in which the indices first appear, each with the
      first id and name and all the arguments. */
  ghost predicate AccsOk(ds: seq<CallDelta>, accs: seq<Acc>) {
    && (forall k :: 0 <= k < |accs| ==> AccOk(ds, accs[k]))
    && (forall i, j :: 0 <= i < j < |accs| ==> FirstPos(ds, accs[i].index) < FirstPos(ds, accs[j].index))
    && (forall d :: d in ds ==> HasAcc(accs, d.index))
  }

  lemma PosAppend(ds: seq<CallDelta>, d: CallDelta, x: nat)
    ensures FirstPos(ds + [d], x) == if FirstPos(ds, x) < |ds| || d.index == x then FirstPos(ds, x) else |ds| + 1
    ensures ArgumentsOf(ds + [d], x) == ArgumentsOf(ds, x) + if d.index == x then d.arguments else ""
  {
  }

  lemma {:induction false} NoArguments(ds: seq<CallDelta>, x: nat)
    requires FirstPos(ds, x) == |ds|
    ensures ArgumentsOf(ds, x) == ""
  {
    if ds != [] {
      NoArguments(ds[..|ds| - 1], x);
    }
  }

  lemma AccKept(ds: seq<CallDelta>, d: CallDelta, a: Acc)
    requires AccOk(ds, a)
    ensures AccOk(ds + [d], if a.index == d.index then a.(arguments := a.arguments + d.arguments) else a)
  {
  }

  lemma AccAdded(ds: seq<CallDelta>, d: CallDelta)
    requires FirstPos(ds, d.index) == |ds|
    ensures AccOk(ds + [d], Acc(d.index, OrEmpty(d.id), OrEmpty(d.name), d.arguments))
  {
    NoArguments(ds, d.index);
    PosAppend(ds, d, d.index);
    hide FirstPos, ArgumentsOf;
  }

  lemma Unmentioned(ds: seq<CallDelta>, accs: seq<Acc>, x: nat)
    requires AccsOk(ds, accs) && Find(accs, x) == |accs|
    ensures FirstPos(ds, x) == |ds|
  {
  }

  /** Positions of the known indices do not move. */
  lemma PositionsKept(ds: seq<CallDelta>, accs: seq<Acc>, d: CallDelta)
    requires AccsOk(ds, accs)
    ensures var r := Accumulated(accs, d);
            && |accs| <= |r|
            && forall i :: 0 <= i < |accs| ==>
                 r[i].index == accs[i].index && FirstPos(ds + [d], accs[i].index) == FirstPos(ds, accs[i].index) < |ds|
  {
    forall i | 0 <= i < |accs| ensures FirstPos(ds + [d], accs[i].index) == FirstPos(ds, accs[i].index) < |ds| {
      assert AccOk(ds, accs[i]);
      PosAppend(ds, d, accs[i].index);
    }
  }

  lemma EntriesKept(ds: seq<CallDelta>, accs: seq<Acc>, d: CallDelta)
    requires AccsOk(ds, accs)
    ensures var r := Accumulated(accs, d); forall i :: 0 <= i < |r| ==> AccOk(ds + [d], r[i])
  {
    var k, r := Find(accs, d.index), Accumulated(accs, d);
    if k == |accs| {
      Unmentioned(ds, accs, d.index);
      AccAdded(ds, d);
    }
    hide FirstPos, ArgumentsOf, Find;
    forall i | 0 <= i < |accs| ensures AccOk(ds + [d], r[i]) {
      AccKept(ds, d, accs[i]);
      assert i == k <==> accs[i].index == d.index;
    }
  }

  lemma MentionsKept(ds: seq<CallDelta>, accs: seq<Acc>, d: CallDelta)
    requires AccsOk(ds, accs)
    ensures forall e :: e in ds + [d] ==> HasAcc(Accumulated(accs, d), e.index)
  {
    PositionsKept(ds, accs, d);
    var r := Accumulated(accs, d);
    hide FirstPos, AccOk;
    forall e | e in ds + [d] ensures HasAcc(r, e.index) {
      if e in ds {
        var a :| a in accs && a.index == e.index;
        var i :| 0 <= i < |accs| && accs[i] == a;
        assert r[i] in r;
      } else {
        assert r[Find(accs, d.index)] in r;
      }
    }
  }

  lemma OrderKept(ds: seq<CallDelta>, accs: seq<Acc>, d: CallDelta)
    requires AccsOk(ds, accs)
    ensures var r := Accumulated(accs, d);
            forall i, j :: 0 <= i < j < |r| ==> FirstPos(ds + [d], r[i].index) < FirstPos(ds + [d], r[j].index)
  {
  }

  lemma AccumulateOk(ds: seq<CallDelta>, accs: seq<Acc>, d: CallDelta)
    requires AccsOk(ds, accs)
    ensures AccsOk(ds + [d], Accumulated(accs, d))
  {
    OrderKept(ds, accs, d);
    EntriesKept(ds, accs, d);
    MentionsKept(ds, accs, d);
    hide FirstPos, AccOk, HasAcc, Accumulated;
  }

  lemma AccsStep(ds: seq<CallDelta>)
    requires ds != []
    ensures var front, d := ds[..|ds| - 1], ds[|ds| - 1];
            Accs(ds) == Accumulated(Accs(front), d) && ds == front + [d]
  {
  }

  lemma NoAccs()
    ensures AccsOk([], Accs([]))
  {
  }

  lemma {:induction false} CallsInFirstSeenOrder(ds: seq<CallDelta>)
    ensures AccsOk(ds, Accs(ds))
  {
    hide *;
    if ds == [] {
      NoAccs();
    } else {
      var front, d := ds[..|ds| - 1], ds[|ds| - 1];
      CallsInFirstSeenOrder(front);
      AccumulateOk(front, Accs(front), d);
      AccsStep(ds);
    }
  }

  // ----- The events of a whole stream -----

  function CallEvents(accs: seq<Acc>): (r: seq<Event>)
    ensures |r| == |accs|
    ensures forall i :: 0 <= i < |r| ==>
              r[i] == ToolUse(accs[i].id, accs[i].name, if accs[i].arguments == "" then "{}" else accs[i].arguments)
  {
    seq(|accs|, i requires 0 <= i < |accs| =>
          ToolUse(accs[i].id, accs[i].name, if accs[i].arguments == "" then "{}" else accs[i].arguments))
  }

  function StopReason(cs: seq<Chunk>): string {
    var r := MapFinish(OrEmpty(LastFinish(cs)));
    if r == "" then "end_turn" else r
  }

  /** The stop reason is never empty; the three reasons of the wire format have their own
      names, a stream that gives none ends its turn, and any other reason is passed on. */
  lemma StopReasonReads(cs: seq<Chunk>)
    ensures StopReason(cs) != ""
    ensures LastFinish(cs) in {None, Some(""), Some("stop")} ==> StopReason(cs) == "end_turn"
    ensures LastFinish(cs) == Some("length") ==> StopReason(cs) == "max_tokens"
    ensures LastFinish(cs) == Some("tool_calls") ==> StopReason(cs) == "tool_use"
    ensures LastFinish(cs).Some? && LastFinish(cs).value !in ["", "stop", "length", "tool_calls"] ==>
              StopReason(cs) == LastFinish(cs).value
  {
  }

  function Ending(cs: seq<Chunk>, thinking: bool): seq<Event> {
    CallEvents(Accs(Deltas(cs))) + [MessageEnd(StopReason(cs), FirstUsage(cs), FirstModel(cs), Reasoning(cs, thinking))]
  }

  /** The chunk after which nothing more is read: an error, or the second of finish and
      usage to arrive, as far as the code looks for it on such a chunk. */
  predicate StopsAt(cs: seq<Chunk>, k: nat)
    requires k < |cs|
  {
    match cs[k]
    case Nothing => false
    case Failure(_) => true
    case Response(_, _, choice) =>
      && FirstUsage(cs[..k + 1]).Some?
      && (if choice.None? then LastFinish(cs[..k]).Some? else choice.value.finish.Some?)
  }

  /** n chunks are read. */
  ghost predicate ReadUpto(cs: seq<Chunk>, n: nat) {
    && n <= |cs|
    && (forall k :: 0 <= k < n - 1 ==> !StopsAt(cs, k))
    && (n < |cs| ==> n > 0 && StopsAt(cs, n - 1))
  }

  /** The end of the stream as the code sees it from chunk k on: just after the first
      chunk that stops it, or where it is closed. */
  function EndFrom(cs: seq<Chunk>, k: nat): (n: nat)
    requires k <= |cs|
    ensures k <= n <= |cs| && (k < |cs| ==> k < n)
    ensures forall j :: k <= j < n - 1 ==> !StopsAt(cs, j)
    ensures n < |cs| ==> StopsAt(cs, n - 1)
    decreases |cs| - k
  {
    if k == |cs| then k else if StopsAt(cs, k) then k + 1 else EndFrom(cs, k + 1)
  }

  function ReadCount(cs: seq<Chunk>): (n: nat)
    ensures ReadUpto(cs, n)
  {
    EndFrom(cs, 0)
  }

  /** Everything a stream of chunks produces. */
  function Produced(cs: seq<Chunk>, thinking: bool): seq<Event> {
    Output(cs, ReadCount(cs), thinking)
  }

  /** What comes out when n chunks are read. */
  function Output(cs: seq<Chunk>, n: nat, thinking: bool): seq<Event>
    requires n <= |cs|
  {
    var read := cs[..n];
    Texts(read) +
    if n > 0 && StopsAt(cs, n - 1) then
      (if cs[n - 1].Failure? then [ErrorEvent(cs[n - 1].error)] else Ending(read, thinking))
    else if LastFinish(read).Some? || Accs(Deltas(read)) != [] then Ending(read, thinking)
    else []
  }

  method Flush(accs: seq<Acc>, before: seq<Event>) returns (out: seq<Event>)
    ensures out == before + CallEvents(accs)
  {
    out := before;
    for i := 0 to |accs|
      invariant out == before + CallEvents(accs)[..i]
    {
      out := out + [ToolUse(accs[i].id, accs[i].name, if accs[i].arguments == "" then "{}" else accs[i].arguments)];
    }
    assert CallEvents(accs)[..|accs|] == CallEvents(accs);
  }

  /** The variables of consumeStream between two chunks. */
  datatype Pending = Pending(accs: seq<Acc>, finish: bool, reason: string, model: string, usage: Option<Usage>, reasoning: string)

  ghost predicate Reflects(p: Pending, out: seq<Event>, cs: seq<Chunk>, thinking: bool) {
    && out == Texts(cs) && p.accs == Accs(Deltas(cs)) && p.usage == FirstUsage(cs) && p.model == FirstModel(cs)
    && p.reasoning == Reasoning(cs, thinking)
    && p.finish == LastFinish(cs).Some? && p.reason == MapFinish(OrEmpty(LastFinish(cs)))
  }

  /** The last events of a stream, from the variables. */
  function Final(p: Pending): seq<Event> {
    CallEvents(p.accs) + [MessageEnd(if p.reason == "" then "end_turn" else p.reason, p.usage, p.model, p.reasoning)]
  }

  method EmitEnd(p: Pending, before: seq<Event>) returns (out: seq<Event>)
    ensures out == before + Final(p)
  {
    out := Flush(p.accs, before);
    out := out + [MessageEnd(if p.reason == "" then "end_turn" else p.reason, p.usage, p.model, p.reasoning)];
  }

  lemma {:induction false} AccsAppend(ds: seq<CallDelta>, es: seq<CallDelta>, e: CallDelta)
    ensures Accs(ds + (es + [e])) == Accumulated(Accs(ds + es), e)
  {
    assert (ds + (es + [e]))[..|ds| + |es|] == ds + es;
  }

  /** Taking in the deltas of one chunk. */
  method TakeCalls(accs: seq<Acc>, es: seq<CallDelta>, ghost ds: seq<CallDelta>) returns (r: seq<Acc>)
    requires accs == Accs(ds)
    ensures r == Accs(ds + es)
  {
    r := accs;
    assert ds + [] == ds;
    for i := 0 to |es|
      invariant r == Accs(ds + es[..i])
    {
      AccsAppend(ds, es[..i], es[i]);
      assert es[..i + 1] == es[..i] + [es[i]];
      r := Accumulate(r, es[i]);
    }
    assert es[..|es|] == es;
  }

  lemma OneMore(cs: seq<Chunk>, c: Chunk, thinking: bool)
    ensures Texts(cs + [c]) == Texts(cs) + if OrEmpty(DeltaOf(c).content) != "" then [TextEvent(OrEmpty(DeltaOf(c).content))] else []
    ensures Reasoning(cs + [c], thinking) == Reasoning(cs, thinking) + if thinking then OrEmpty(DeltaOf(c).reasoning) else ""
    ensures Deltas(cs + [c]) == Deltas(cs) + DeltaOf(c).calls
    ensures FirstUsage(cs + [c]) == if FirstUsage(cs).Some? then FirstUsage(cs) else UsageOf(c)
    ensures LastFinish(cs + [c]) == if FinishOf(c).Some? then FinishOf(c) else LastFinish(cs)
    ensures FirstModel(cs + [c]) == if FirstModel(cs) != "" then FirstModel(cs) else if c.Response? then c.model else ""
    ensures StopsAt(cs + [c], |cs|) <==>
              c.Failure? || (c.Response? && FirstUsage(cs + [c]).Some?
                             && if c.choice.None? then LastFinish(cs).Some? else c.choice.value.finish.Some?)
  {
    assert (cs + [c])[..|cs|] == cs && (cs + [c])[..|cs| + 1] == cs + [c];
  }

  /** What the text, the reasoning and the tool calls of one chunk do to the variables. */
  method TakeDelta(p: Pending, before: seq<Event>, delta: Delta, thinking: bool, ghost ds: seq<CallDelta>)
    returns (q: Pending, out: seq<Event>)
    requires p.accs == Accs(ds)
    ensures out == before + if OrEmpty(delta.content) != "" then [TextEvent(OrEmpty(delta.content))] else []
    ensures q == p.(accs := Accs(ds + delta.calls),
                    reasoning := p.reasoning + if thinking then OrEmpty(delta.reasoning) else "")
  {
    hide Accs;
    q, out := p, before;
    if delta.content.Some? && delta.content.value != "" {
      out := out + [TextEvent(delta.content.value)];
    }
    if thinking && delta.reasoning.Some? && delta.reasoning.value != "" {
      q := q.(reasoning := q.reasoning + delta.reasoning.value);
    }
    var accs := TakeCalls(q.accs, delta.calls, ds);
    q := q.(accs := accs);
  }

  /** What one response chunk does to the variables. */
  method TakeChunk(p: Pending, before: seq<Event>, c: Chunk, thinking: bool, ghost cs: seq<Chunk>)
    returns (q: Pending, out: seq<Event>, stops: bool)
    requires c.Response? && Reflects(p, before, cs, thinking)
    ensures Reflects(q, out, cs + [c], thinking)
    ensures stops <==> StopsAt(cs + [c], |cs|)
  {
    OneMore(cs, c, thinking);
    hide Texts, Reasoning, Deltas, FirstUsage, LastFinish, FirstModel, Accs, StopsAt, MapFinish;
    q, out, stops := p, before, false;
    if q.model == "" && c.model != "" {
      q := q.(model := c.model);
    }
    if c.usage.Some? && q.usage.None? {
      q := q.(usage := c.usage);
    }
    assert Deltas(cs) + [] == Deltas(cs);
    if c.choice.None? {
      stops := q.finish && q.usage.Some?;
      return;
    }
    var choice := c.choice.value;
    if choice.delta.Some? {
      q, out := TakeDelta(q, out, choice.delta.value, thinking, Deltas(cs));
    }
    if choice.finish.Some? {
      q := q.(finish := true, reason := MapFinish(choice.finish.value));
      stops := q.usage.Some?;
    }
  }

  lemma OutputAtEnd(p: Pending, out: seq<Event>, cs: seq<Chunk>, n: nat, thinking: bool)
    requires n <= |cs| && Reflects(p, out, cs[..n], thinking)
    requires n > 0 && StopsAt(cs, n - 1) ==> cs[n - 1].Response?
    ensures Output(cs, n, thinking) ==
            if (n > 0 && StopsAt(cs, n - 1)) || p.finish || p.accs != [] then out + Final(p) else out
  {
  }

  /** consumeStream. */
  method ConsumeStream(cs: seq<Chunk>, thinking: bool) returns (out: seq<Event>, error: Option<string>)
    ensures out == Produced(cs, thinking)
    ensures var n := ReadCount(cs); error == if n > 0 && cs[n - 1].Failure? then Some(cs[n - 1].error) else None
  {
    var n;
    out, error, n := ConsumeCounted(cs, thinking);
    ReadOnce(cs, n, ReadCount(cs));
  }

  /** The loop, together with the number of chunks it took from the channel. */
  method ConsumeCounted(cs: seq<Chunk>, thinking: bool) returns (out: seq<Event>, error: Option<string>, n: nat)
    ensures ReadUpto(cs, n) && out == Output(cs, n, thinking)
    ensures error == if n > 0 && cs[n - 1].Failure? then Some(cs[n - 1].error) else None
  {
    hide Texts, Deltas, Output, Ending, Reflects, Accs, Final, StopsAt;
    var p := Pending([], false, "", "", None, "");
    out, error, n := [], None, 0;
    NothingYet(cs, thinking);
    var i := 0;
    while i < |cs|
      invariant 0 <= i <= |cs| && Reflects(p, out, cs[..i], thinking)
      invariant forall k :: 0 <= k < i ==> !StopsAt(cs, k) && !cs[k].Failure?
      invariant error == None
    {
      n := i + 1;
      assert cs[..i + 1] == cs[..i] + [cs[i]];
      match cs[i] {
      case Nothing =>
        NothingChanges(p, out, cs[..i], thinking);
        NothingStopsNot(cs, i);
      case Failure(e) =>
        OutputAtFailure(p, out, cs, i, thinking);
        return out + [ErrorEvent(e)], Some(e), n;
      case Response(_, _, _) =>
        var stops;
        p, out, stops := TakeChunk(p, out, cs[i], thinking, cs[..i]);
        StopsInPrefix(cs, i);
        if stops {
          OutputAtEnd(p, out, cs, n, thinking);
          out := EmitEnd(p, out);
          return;
        }
      }
      i := i + 1;
    }
    n := |cs|;
    assert cs[..|cs|] == cs;
    OutputAtEnd(p, out, cs, n, thinking);
    if p.finish || p.accs != [] {
      out := EmitEnd(p, out);
    }
  }

  lemma NothingYet(cs: seq<Chunk>, thinking: bool)
    ensures Reflects(Pending([], false, "", "", None, ""), [], cs[..0], thinking)
  {
  }

  lemma NothingStopsNot(cs: seq<Chunk>, i: nat)
    requires i < |cs| && cs[i].Nothing?
    ensures !StopsAt(cs, i)
  {
  }

  lemma StopsInPrefix(cs: seq<Chunk>, i: nat)
    requires i < |cs|
    ensures StopsAt(cs[..i] + [cs[i]], |cs[..i]|) <==> StopsAt(cs, i)
  {
    assert cs[..i + 1] == cs[..i] + [cs[i]];
    assert (cs[..i] + [cs[i]])[..i] == cs[..i] && (cs[..i] + [cs[i]])[..i + 1] == cs[..i + 1];
  }

  lemma OutputAtFailure(p: Pending, out: seq<Event>, cs: seq<Chunk>, i: nat, thinking: bool)
    requires i < |cs| && cs[i].Failure? && Reflects(p, out, cs[..i], thinking)
    ensures Output(cs, i + 1, thinking) == out + [ErrorEvent(cs[i].error)] && StopsAt(cs, i)
  {
    assert cs[..i + 1] == cs[..i] + [cs[i]];
    SilentChunk(cs[..i], cs[i]);
  }

  /** A chunk that is no response says nothing. */
  lemma SilentChunk(cs: seq<Chunk>, c: Chunk)
    requires !c.Response?
    ensures Texts(cs + [c]) == Texts(cs) && Deltas(cs + [c]) == Deltas(cs)
  {
  }

  lemma NothingChanges(p: Pending, out: seq<Event>, cs: seq<Chunk>, thinking: bool)
    requires Reflects(p, out, cs, thinking)
    ensures Reflects(p, out, cs + [Nothing], thinking)
  {
    SilentChunk(cs, Nothing);
    assert (cs + [Nothing])[..|cs|] == cs;
  }

  // ----- What every stream guarantees -----

  lemma {:induction false} TextsAreTexts(cs: seq<Chunk>)
    ensures forall i :: 0 <= i < |Texts(cs)| ==> Texts(cs)[i].TextEvent? && Texts(cs)[i].text != ""
  {
    if cs != [] {
      TextsAreTexts(cs[..|cs| - 1]);
    }
  }

  /** The output ends with at most one MessageEnd, directly after the tool calls, and an
      output that ends with an error has none and no tool calls either. */
  lemma OutputShape(cs: seq<Chunk>, thinking: bool)
    ensures var out, n := Produced(cs, thinking), ReadCount(cs);
            var m := |Texts(cs[..n])|;
            && m <= |out| && out[..m] == Texts(cs[..n])
            && (forall i :: m <= i < |out| - 1 ==> out[i].ToolUse?)
            && (|out| > m ==> out[|out| - 1].MessageEnd? || (out[|out| - 1].ErrorEvent? && |out| == m + 1))
            && (forall i :: 0 <= i < |out| && out[i].MessageEnd? ==> i == |out| - 1)
            && (n > 0 && cs[n - 1].Failure? ==> forall i :: 0 <= i < |out| ==> !out[i].MessageEnd? && !out[i].ToolUse?)
  {
    TextsAreTexts(cs[..ReadCount(cs)]);
    hide StopsAt, Texts, LastFinish, Accs, Deltas, ReadCount;
  }

  /** The chunk gives a finish reason. */
  predicate Ends(c: Chunk) {
    c.Response? && c.choice.Some? && c.choice.value.finish.Some?
  }

  lemma {:induction false} NoFinish(cs: seq<Chunk>)
    ensures LastFinish(cs).None? <==> forall c :: c in cs ==> !Ends(c)
  {
    if cs != [] {
      var n := |cs| - 1;
      NoFinish(cs[..n]);
      assert cs[n] in cs && forall c :: c in cs ==> c in cs[..n] || c == cs[n];
      assert FinishOf(cs[n]).Some? <==> Ends(cs[n]);
    }
  }

  /** After a failure the error is all that follows the text. Otherwise a stream that gave a
      finish reason or a piece of a call ends with all its calls and one MessageEnd that
      carries stop reason, usage, model and reasoning; any other ends with its text. */
  lemma OutputReads(cs: seq<Chunk>, thinking: bool)
    ensures var out, read := Produced(cs, thinking), cs[..ReadCount(cs)];
            if read != [] && read[|read| - 1].Failure? then out == Texts(read) + [ErrorEvent(read[|read| - 1].error)]
            else if Deltas(read) == [] && forall c :: c in read ==> !Ends(c) then out == Texts(read)
            else out == Texts(read) + CallEvents(Accs(Deltas(read)))
                        + [MessageEnd(StopReason(read), FirstUsage(read), FirstModel(read), Reasoning(read, thinking))]
  {
    var n := ReadCount(cs);
    var read := cs[..n];
    NoFinish(read);
    if n > 0 {
      StopHasFinish(cs, n);
    }
    assert Accs(Deltas(read)) == [] <==> Deltas(read) == [];
    hide Texts, Accs, Deltas, LastFinish, FirstUsage, FirstModel, Reasoning, CallEvents, StopReason, StopsAt, ReadCount, Ends;
  }

  /** Only a failure stops a stream that has not given a finish reason. */
  lemma StopHasFinish(cs: seq<Chunk>, n: nat)
    requires 0 < n <= |cs|
    ensures cs[n - 1].Failure? ==> StopsAt(cs, n - 1)
    ensures StopsAt(cs, n - 1) && !cs[n - 1].Failure? ==> LastFinish(cs[..n]).Some?
  {
    assert cs[..n][..n - 1] == cs[..n - 1];
  }

  // ----- Finish and usage may arrive in either order -----

  /** Before a stream has shown any finish or usage. */
  ghost predicate Early(cs: seq<Chunk>) {
    FirstUsage(cs).None? && LastFinish(cs).None? && forall c :: c in cs ==> !c.Failure?
  }

  lemma {:induction false} EarlyPrefix(cs: seq<Chunk>, k: nat)
    requires Early(cs) && k <= |cs|
    ensures Early(cs[..k])
    decreases |cs|
  {
    if k < |cs| {
      var front := cs[..|cs| - 1];
      assert FirstUsage(front).None? && LastFinish(front).None?;
      EarlyPrefix(front, k);
      assert front[..k] == cs[..k];
    } else {
      assert cs[..k] == cs;
    }
  }

  /** The stream stops exactly after the pair that brings finish and usage. */
  lemma StopsAfterPair(pre: seq<Chunk>, x: Chunk, y: Chunk, post: seq<Chunk>)
    requires Early(pre) && x.Response? && y.Response?
    requires (FinishOf(x).Some? && UsageOf(x).None? && y.choice.None? && UsageOf(y).Some?)
          || (x.choice.None? && UsageOf(x).Some? && FinishOf(y).Some?)
    ensures ReadUpto(pre + [x, y] + post, |pre| + 2) && StopsAt(pre + [x, y] + post, |pre| + 1)
    ensures (pre + [x, y] + post)[..|pre| + 2] == pre + [x] + [y]
  {
    var cs := pre + [x, y] + post;
    assert cs[..|pre| + 2] == pre + [x] + [y] && cs[..|pre| + 1] == pre + [x];
    OneMore(pre, x, true);
    OneMore(pre + [x], y, true);
    forall k | 0 <= k < |pre| ensures !StopsAt(cs, k) {
      EarlyPrefix(pre, k + 1);
      assert cs[..k + 1] == pre[..k + 1] && cs[k] == pre[k];
    }
    assert cs[..|pre|] == pre && cs[|pre|] == x && !StopsAt(cs, |pre|);
  }

  /** Swapping the first finish chunk and the usage-only chunk next to it, of the same
      model, changes nothing in the output. */
  lemma FinishUsageSwap(pre: seq<Chunk>, f: Chunk, u: Chunk, post: seq<Chunk>, thinking: bool)
    requires Early(pre) && f.Response? && FinishOf(f).Some? && UsageOf(f).None?
    requires u.Response? && u.choice.None? && UsageOf(u).Some? && u.model == f.model
    ensures Produced(pre + [f, u] + post, thinking) == Produced(pre + [u, f] + post, thinking)
  {
    StopsAfterPair(pre, f, u, post);
    StopsAfterPair(pre, u, f, post);
    ReadOnce(pre + [f, u] + post, |pre| + 2, ReadCount(pre + [f, u] + post));
    ReadOnce(pre + [u, f] + post, |pre| + 2, ReadCount(pre + [u, f] + post));
    SameEnding(pre, f, u, thinking);
    hide StopsAt, Ending, ReadUpto, Early, ReadCount;
  }

  lemma SameEnding(pre: seq<Chunk>, f: Chunk, u: Chunk, thinking: bool)
    requires Early(pre) && f.Response? && FinishOf(f).Some? && UsageOf(f).None?
    requires u.Response? && u.choice.None? && UsageOf(u).Some? && u.model == f.model
    ensures Texts(pre + [f] + [u]) == Texts(pre + [u] + [f])
    ensures Ending(pre + [f] + [u], thinking) == Ending(pre + [u] + [f], thinking)
  {
    OneMore(pre, f, thinking);
    OneMore(pre, u, thinking);
    OneMore(pre + [f], u, thinking);
    OneMore(pre + [u], f, thinking);
    assert forall s: seq<CallDelta> :: s + [] == s;
    assert forall s: seq<Event> :: s + [] == s;
    assert forall s: string :: s + "" == s;
    hide Texts, Reasoning, Deltas, FirstUsage, LastFinish, FirstModel, StopsAt, Accs;
  }

  /** How much is read is a function of the stream. */
  lemma ReadOnce(cs: seq<Chunk>, m: nat, n: nat)
    requires ReadUpto(cs, m) && ReadUpto(cs, n)
    ensures m == n
  {
  }
}

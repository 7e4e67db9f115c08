/** Session history: messages made of content blocks, the session object that
    holds them, and the pairing of tool calls with their results
    (pkg/types/message.go, internal/engine/session/session.go). */
module Conversation {
  import opened Common

  datatype Role = User | Assistant | System

  datatype Block =
    | Text(text: string)
    | ToolUse(id: string, name: string, input: string)
    | ToolResult(id: string, name: string, output: string, isError: bool)
    | Image(mediaType: string, data: string, url: string, filePath: string)
    | File(mediaType: string, data: string, url: string, filename: string)

  datatype Message = Message(role: Role, content: seq<Block>, tokens: int, reasoning: string)

  type History = seq<Message>

  /** The message turns into a "tool" message on the wire. */
  predicate IsResult(m: Message) {
    exists b :: b in m.content && b.ToolResult?
  }

  /** The shape in which the loop records one tool result. */
  predicate SingleResult(m: Message) {
    m.role == User && |m.content| == 1 && m.content[0].ToolResult?
  }

  /** The id a recorded tool result answers. */
  function AnswerId(m: Message): string {
    if SingleResult(m) then m.content[0].id else ""
  }

  /** The tool-call ids an assistant message opens. */
  function Opens(m: Message): set<string> {
    if m.role != Assistant then {} else set b | b in m.content && b.ToolUse? :: b.id
  }

  predicate Plain(m: Message) {
    !IsResult(m) && Opens(m) == {}
  }

  // ----- Pairing -----

  /** Message i answers a call of message a, from the unbroken block of results after a. */
  ghost predicate Answers(h: History, a: int, i: int) {
    && 0 <= a < i < |h|
    && SingleResult(h[i]) && AnswerId(h[i]) in Opens(h[a])
    && forall k :: a < k <= i ==> IsResult(h[k])
  }

  ghost predicate AnswersId(h: History, a: int, i: int, id: string) {
    Answers(h, a, i) && AnswerId(h[i]) == id
  }

  ghost predicate Claimed(h: History, i: int) {
    exists a :: Answers(h, a, i)
  }

  ghost predicate Closed(h: History, a: int, id: string) {
    exists i :: AnswersId(h, a, i, id)
  }

  /** Every tool result sits in the block right after the assistant that opened its
      id, and every opened id is answered. */
  ghost predicate Paired(h: History) {
    && (forall i :: 0 <= i < |h| && IsResult(h[i]) ==> Claimed(h, i))
    && (forall a, id :: 0 <= a < |h| && id in Opens(h[a]) ==> Closed(h, a, id))
  }

  predicate UserFirst(h: History) {
    h != [] && h[0].role == User && Plain(h[0])
  }

  ghost predicate Sound(h: History) {
    Paired(h) && UserFirst(h)
  }

  /** Pairing in a longer history carries over from a shift of it. */
  lemma AnswersShift(h: History, pre: History, a: int, i: int)
    ensures Answers(h, a, i) ==> Answers(pre + h, |pre| + a, |pre| + i)
  {
  }

  lemma AnswersPrefix(h: History, post: History, a: int, i: int)
    ensures Answers(h, a, i) ==> Answers(h + post, a, i)
  {
  }

  /** Two paired histories can be joined. */
  lemma PairedJoin(h: History, g: History)
    requires Paired(h) && Paired(g)
    ensures Paired(h + g)
  {
    hide Claimed, Closed, IsResult, Opens;
    var r := h + g;
    forall i | 0 <= i < |r| && IsResult(r[i]) ensures Claimed(r, i) {
      if i < |h| {
        assert r[i] == h[i];
        JoinClaimed(h, g, [], i);
        assert h + [] == h && [] + h == h;
      } else {
        assert r[i] == g[i - |h|];
        JoinClaimed(g, [], h, i - |h|);
        assert h + g + [] == h + g;
      }
    }
    forall a, id | 0 <= a < |r| && id in Opens(r[a]) ensures Closed(r, a, id) {
      if a < |h| {
        assert r[a] == h[a];
        JoinClosed(h, g, [], a, id);
      } else {
        assert r[a] == g[a - |h|];
        JoinClosed(g, [], h, a - |h|, id);
        assert h + g + [] == h + g;
      }
    }
  }

  /** What is claimed stays claimed with more history on either side. */
  lemma JoinClaimed(h: History, post: History, pre: History, i: nat)
    requires Claimed(h, i)
    ensures Claimed(pre + h + post, |pre| + i)
    ensures pre == [] ==> Claimed(h + post, i)
  {
    hide Answers;
    var a :| Answers(h, a, i);
    AnswersShift(h, pre, a, i);
    AnswersPrefix(pre + h, post, |pre| + a, |pre| + i);
    assert pre == [] ==> pre + h == h;
  }

  lemma AnswersInside(h: History, a: int, i: int)
    requires Answers(h, a, i)
    ensures 0 <= a < i < |h|
  {
  }

  lemma JoinClosed(h: History, post: History, pre: History, a: nat, id: string)
    requires Closed(h, a, id)
    ensures Closed(pre + h + post, |pre| + a, id)
    ensures pre == [] ==> Closed(h + post, a, id)
  {
    hide Answers, AnswerId;
    var i :| AnswersId(h, a, i, id);
    AnswersInside(h, a, i);
    AnswersShift(h, pre, a, i);
    AnswersPrefix(pre + h, post, |pre| + a, |pre| + i);
    assert (pre + h + post)[|pre| + i] == h[i];
    assert AnswersId(pre + h + post, |pre| + a, |pre| + i, id);
    assert pre == [] ==> pre + h == h;
  }

  lemma PlainIsPaired(m: Message)
    requires Plain(m)
    ensures Paired([m])
  {
  }

  lemma {:induction false} AllPlainIsPaired(h: History)
    requires forall m :: m in h ==> Plain(m)
    ensures Paired(h)
  {
    if h != [] {
      var front := h[..|h| - 1];
      AllPlainIsPaired(front);
      PlainIsPaired(h[|h| - 1]);
      PairedJoin(front, [h[|h| - 1]]);
      assert h == front + [h[|h| - 1]];
    }
  }

  /** Cutting a paired history in front of a message that is no result leaves both halves paired. */
  lemma PairedCut(h: History, k: nat)
    requires Paired(h) && k <= |h| && (k < |h| ==> !IsResult(h[k]))
    ensures Paired(h[..k]) && Paired(h[k..])
  {
    if k < |h| {
      PairedFront(h, k);
      PairedBack(h, k);
    } else {
      assert h[..k] == h;
    }
  }

  /** A block of results never crosses a message that is no result, so it lies on
      one side of a cut made there. */
  lemma BlockStaysWhole(h: History, k: nat, a: int, i: int)
    requires k < |h| && !IsResult(h[k]) && Answers(h, a, i)
    ensures i < k ==> Answers(h[..k], a, i)
    ensures a >= k ==> Answers(h[k..], a - k, i - k)
    ensures 0 <= a < i < |h| && (i < k || a >= k)
  {
  }

  lemma PairedFront(h: History, k: nat)
    requires Paired(h) && k < |h| && !IsResult(h[k])
    ensures Paired(h[..k])
  {
    hide IsResult, Opens, AnswerId, Answers;
    var g := h[..k];
    forall i | 0 <= i < |g| && IsResult(g[i]) ensures Claimed(g, i) {
      assert Claimed(h, i);
      var a :| Answers(h, a, i);
      BlockStaysWhole(h, k, a, i);
    }
    forall a, id | 0 <= a < |g| && id in Opens(g[a]) ensures Closed(g, a, id) {
      assert Closed(h, a, id);
      var i :| AnswersId(h, a, i, id);
      BlockStaysWhole(h, k, a, i);
      assert AnswersId(g, a, i, id);
    }
  }

  lemma PairedBack(h: History, k: nat)
    requires Paired(h) && k < |h| && !IsResult(h[k])
    ensures Paired(h[k..])
  {
    hide IsResult, Opens, Claimed, Closed;
    var g := h[k..];
    forall i | 0 <= i < |g| && IsResult(g[i]) ensures Claimed(g, i) {
      BackClaimed(h, k, i);
    }
    forall a, id | 0 <= a < |g| && id in Opens(g[a]) ensures Closed(g, a, id) {
      BackClosed(h, k, a, id);
    }
  }

  lemma BackClaimed(h: History, k: nat, i: nat)
    requires k < |h| && !IsResult(h[k]) && Claimed(h, k + i)
    ensures Claimed(h[k..], i)
  {
    hide IsResult, Answers;
    var a :| Answers(h, a, k + i);
    BlockStaysWhole(h, k, a, k + i);
    assert Answers(h[k..], a - k, i);
  }

  lemma BackClosed(h: History, k: nat, a: nat, id: string)
    requires k < |h| && !IsResult(h[k]) && Closed(h, k + a, id)
    ensures Closed(h[k..], a, id)
  {
    hide IsResult, Answers, AnswerId;
    var i :| AnswersId(h, k + a, i, id);
    BlockStaysWhole(h, k, k + a, i);
    assert AnswersId(h[k..], a, i - k, id);
  }

  // ----- A batch of results -----

  datatype Call = Call(id: string, name: string, input: string)

  datatype CallResult = CallResult(content: string, isError: bool, newMessages: seq<Message>)

  function ResultMessage(call: Call, result: CallResult): Message {
    Message(User, [ToolResult(call.id, call.name, result.content, result.isError)], 0, "")
  }

  /** What appending the results of the first n calls adds to the session. */
  function BatchUpto(calls: seq<Call>, results: seq<CallResult>, n: nat): History
    requires n <= |calls| == |results|
  {
    if n == 0 then []
    else BatchUpto(calls, results, n - 1) + [ResultMessage(calls[n - 1], results[n - 1])] + results[n - 1].newMessages
  }

  function Batch(calls: seq<Call>, results: seq<CallResult>): History
    requires |calls| == |results|
  {
    BatchUpto(calls, results, |calls|)
  }

  function CallIds(calls: seq<Call>): set<string> {
    set c | c in calls :: c.id
  }

  /** The assistant message opens exactly the ids of these calls. */
  predicate Requests(a: Message, calls: seq<Call>) {
    a.role == Assistant && !IsResult(a) && Opens(a) == CallIds(calls)
  }

  /** No result but the last brings new messages along. */
  predicate Unbroken(results: seq<CallResult>) {
    forall i :: 0 <= i < |results| - 1 ==> results[i].newMessages == []
  }

  predicate NewMessagesPlain(results: seq<CallResult>) {
    forall r :: r in results ==> forall m :: m in r.newMessages ==> Plain(m)
  }

  lemma {:induction false} BareBatch(calls: seq<Call>, results: seq<CallResult>, n: nat)
    requires n <= |calls| == |results| && forall i :: 0 <= i < n ==> results[i].newMessages == []
    ensures |BatchUpto(calls, results, n)| == n
    ensures forall i :: 0 <= i < n ==> BatchUpto(calls, results, n)[i] == ResultMessage(calls[i], results[i])
    decreases n
  {
    if n > 0 {
      BareBatch(calls, results, n - 1);
    }
  }

  /** Call by call, a batch has one user message with the result of that call, and right
      behind it the messages that result brought along; nothing else. */
  lemma {:induction false} BatchReads(calls: seq<Call>, results: seq<CallResult>, i: nat)
    requires i < |calls| == |results|
    ensures var b, p, news := Batch(calls, results), |BatchUpto(calls, results, i)|, results[i].newMessages;
            && p + 1 + |news| == |BatchUpto(calls, results, i + 1)| <= |b|
            && b[p] == Message(User, [ToolResult(calls[i].id, calls[i].name, results[i].content, results[i].isError)], 0, "")
            && b[p + 1..p + 1 + |news|] == news
    ensures |BatchUpto(calls, results, 0)| == 0
  {
    BatchGrows(calls, results, i + 1, |calls|);
  }

  lemma ResultMessageShape(call: Call, result: CallResult)
    ensures SingleResult(ResultMessage(call, result)) && IsResult(ResultMessage(call, result))
  {
  }

  /** An assistant message followed by one result per call is paired by itself. */
  lemma RequestThenResults(a: Message, calls: seq<Call>, rs: History)
    requires Requests(a, calls) && |rs| == |calls|
    requires forall i :: 0 <= i < |rs| ==> SingleResult(rs[i]) && IsResult(rs[i]) && AnswerId(rs[i]) == calls[i].id
    ensures Paired([a] + rs)
  {
    var h := [a] + rs;
    forall i | 0 <= i < |h| && IsResult(h[i]) ensures Claimed(h, i) {
      assert calls[i - 1] in calls;
      assert Answers(h, 0, i);
    }
    forall x, id | 0 <= x < |h| && id in Opens(h[x]) ensures Closed(h, x, id) {
      var j :| 0 <= j < |calls| && calls[j].id == id;
      assert h[j + 1] == rs[j] && AnswersId(h, 0, j + 1, id);
    }
  }

  lemma UnbrokenBatchPairs(a: Message, calls: seq<Call>, results: seq<CallResult>)
    requires Requests(a, calls) && |calls| == |results| && NewMessagesPlain(results) && Unbroken(results)
    ensures Paired([a] + Batch(calls, results))
  {
    var n := |calls|;
    if n == 0 {
      assert [a] + Batch(calls, results) == [a];
      PlainIsPaired(a);
    } else {
      var rs := BareResults(calls, results);
      hide Paired, Requests;
      RequestThenResults(a, calls, rs);
      var news := results[n - 1].newMessages;
      assert results[n - 1] in results;
      AllPlainIsPaired(news);
      PairedJoin([a] + rs, news);
      assert [a] + Batch(calls, results) == [a] + rs + news;
    }
  }

  /** The result messages of an unbroken batch, without what the last one brings along. */
  lemma BareResults(calls: seq<Call>, results: seq<CallResult>) returns (rs: History)
    requires |calls| == |results| > 0 && Unbroken(results)
    ensures Batch(calls, results) == rs + results[|calls| - 1].newMessages && |rs| == |calls|
    ensures forall i :: 0 <= i < |rs| ==> SingleResult(rs[i]) && IsResult(rs[i]) && AnswerId(rs[i]) == calls[i].id
  {
    var n := |calls|;
    BareBatch(calls, results, n - 1);
    rs := BatchUpto(calls, results, n - 1) + [ResultMessage(calls[n - 1], results[n - 1])];
    forall i | 0 <= i < n
      ensures SingleResult(rs[i]) && IsResult(rs[i]) && AnswerId(rs[i]) == calls[i].id
    {
      ResultMessageShape(calls[i], results[i]);
    }
  }

  lemma {:induction false} BatchGrows(calls: seq<Call>, results: seq<CallResult>, i: nat, n: nat)
    requires i <= n <= |calls| == |results|
    ensures BatchUpto(calls, results, i) <= BatchUpto(calls, results, n)
    decreases n
  {
    if i < n {
      BatchGrows(calls, results, i, n - 1);
    }
  }

  /** A message slipped in between two results leaves the later result unclaimed. */
  lemma BrokenBatch(pre: History, calls: seq<Call>, results: seq<CallResult>, i: nat)
    requires |calls| == |results| && i < |calls| - 1 && results[i].newMessages != [] && NewMessagesPlain(results)
    ensures !Paired(pre + Batch(calls, results))
  {
    var h := pre + Batch(calls, results);
    var p := |BatchUpto(calls, results, i + 1)|;
    BatchGrows(calls, results, i + 1, |calls|);
    BatchGrows(calls, results, i + 2, |calls|);
    var news := results[i].newMessages;
    assert results[i] in results && Plain(news[|news| - 1]);
    assert BatchUpto(calls, results, i + 1)[p - 1] == news[|news| - 1];
    assert BatchUpto(calls, results, i + 2)[p] == ResultMessage(calls[i + 1], results[i + 1]);
    var q := |pre| + p;
    assert h[q - 1] == news[|news| - 1] && h[q] == ResultMessage(calls[i + 1], results[i + 1]);
    ResultMessageShape(calls[i + 1], results[i + 1]);
    forall a ensures !Answers(h, a, q) {
      assert Opens(h[q - 1]) == {} && !IsResult(h[q - 1]);
    }
    assert !Claimed(h, q);
  }

  /** Recording an assistant turn and its results keeps a history paired exactly
      when no result but the last brings messages of its own. */
  lemma TurnKeepsPairingIff(h: History, a: Message, calls: seq<Call>, results: seq<CallResult>)
    requires Paired(h) && Requests(a, calls) && |calls| == |results| && NewMessagesPlain(results)
    ensures Paired(h + [a] + Batch(calls, results)) <==> Unbroken(results)
  {
    if Unbroken(results) {
      UnbrokenBatchPairs(a, calls, results);
      PairedJoin(h, [a] + Batch(calls, results));
      assert h + ([a] + Batch(calls, results)) == h + [a] + Batch(calls, results);
    } else {
      var i :| 0 <= i < |results| - 1 && results[i].newMessages != [];
      BrokenBatch(h + [a], calls, results, i);
    }
  }

  // ----- The session object -----

  /** Summed message sizes. */
  function Tokens(h: History): int {
    if h == [] then 0 else Tokens(h[..|h| - 1]) + h[|h| - 1].tokens
  }

  lemma {:induction false} TokensAppend(h: History, g: History)
    ensures Tokens(h + g) == Tokens(h) + Tokens(g)
  {
    if g == [] {
      assert h + g == h;
    } else {
      var n := |g| - 1;
      TokensAppend(h, g[..n]);
      assert (h + g)[..|h + g| - 1] == h + g[..n];
    }
  }

  class Session {
    var messages: History
    var totalInputTokens: int

    constructor (h: History)
      ensures messages == h && totalInputTokens == 0
    {
      messages := h;
      totalInputTokens := 0;
    }

    method AddMessage(m: Message)
      modifies this
      ensures messages == old(messages) + [m] && totalInputTokens == old(totalInputTokens) + m.tokens
    {
      messages := messages + [m];
      totalInputTokens := totalInputTokens + m.tokens;
    }

    method SetMessages(h: History)
      modifies this`messages
      ensures messages == h
    {
      messages := h;
    }

    method AddAll(ms: seq<Message>)
      modifies this
      ensures messages == old(messages) + ms && totalInputTokens == old(totalInputTokens) + Tokens(ms)
    {
      for j := 0 to |ms|
        invariant messages == old(messages) + ms[..j]
        invariant totalInputTokens == old(totalInputTokens) + Tokens(ms[..j])
      {
        assert ms[..j + 1][..j] == ms[..j];
        AddMessage(ms[j]);
      }
      assert ms[..|ms|] == ms;
    }

    /** appendToolResultsToSession: one message per call, in call order. */
    method AppendToolResults(calls: seq<Call>, results: seq<CallResult>)
      requires |calls| == |results|
      modifies this
      ensures messages == old(messages) + Batch(calls, results)
      ensures totalInputTokens == old(totalInputTokens) + Tokens(Batch(calls, results))
    {
      for i := 0 to |calls|
        invariant messages == old(messages) + BatchUpto(calls, results, i)
        invariant totalInputTokens == old(totalInputTokens) + Tokens(BatchUpto(calls, results, i))
      {
        ghost var before := BatchUpto(calls, results, i);
        var m := ResultMessage(calls[i], results[i]);
        AddMessage(m);
        AddAll(results[i].newMessages);
        TokensAppend(before, [m]);
        TokensAppend(before + [m], results[i].newMessages);
        assert Tokens([m]) == m.tokens;
      }
    }
  }
}

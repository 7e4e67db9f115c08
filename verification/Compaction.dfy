/** History compaction: the cut that never starts with a tool result, the two
    compaction modes and the circuit breaker (internal/engine/compact/compactor.go). */
module Compaction {
  import opened Common
  import opened Conversation

  /** What the summarising model call returns. */
  datatype Summary = Failed | Summarized(text: string)

  /** White space as Unicode classes it. */
  predicate Space(c: char) {
    || c == ' ' || '\t' <= c <= '\r' || c == '\U{85}' || c == '\U{A0}' || c == '\U{1680}'
    || '\U{2000}' <= c <= '\U{200A}' || c == '\U{2028}' || c == '\U{2029}' || c == '\U{202F}'
    || c == '\U{205F}' || c == '\U{3000}'
  }

  /** The text is empty once trimmed. */
  predicate Blank(s: string) {
    forall c :: c in s ==> Space(c)
  }

  /** k is where the kept tail starts: the first message from `from` on that is no result. */
  predicate IsCut(h: History, from: nat, k: nat) {
    && from <= k <= |h|
    && (forall j :: from <= j < k ==> IsResult(h[j]))
    && (k < |h| ==> !IsResult(h[k]))
  }

  function Cut(h: History, from: nat): (k: nat)
    requires from <= |h|
    ensures IsCut(h, from, k)
    decreases |h| - from
  {
    if from < |h| && IsResult(h[from]) then Cut(h, from + 1) else from
  }

  const PREFIX := "[Prior conversation summary]\n"

  function SummaryMessage(text: string): Message {
    Message(User, [Text(PREFIX + text)], 0, "")
  }

  /** The opening message and the most recent half. */
  function Micro(h: History): History {
    if |h| <= 2 then h else [h[0]] + h[Cut(h, |h| / 2)..]
  }

  /** A summary and the most recent third. */
  function Full(h: History, text: string): History {
    [SummaryMessage(text)] + h[Cut(h, |h| * 2 / 3)..]
  }

  function Compacted(h: History, s: Summary): Option<History> {
    if |h| < 4 then Some(h)
    else if |h| < 10 then Some(Micro(h))
    else if s.Failed? then None
    else if Blank(s.text) then Some(Micro(h))
    else Some(Full(h, s.text))
  }

  /** advancePastOrphanToolResults. */
  method AdvancePast(h: History, from: nat) returns (k: nat)
    requires from <= |h|
    ensures IsCut(h, from, k) && k == Cut(h, from)
  {
    k := from;
    while k < |h| && IsResult(h[k])
      invariant from <= k <= |h|
      invariant forall j :: from <= j < k ==> IsResult(h[j])
    {
      k := k + 1;
    }
    CutUnique(h, from, k, Cut(h, from));
  }

  /** There is exactly one cut. */
  lemma CutUnique(h: History, from: nat, k: nat, l: nat)
    requires IsCut(h, from, k) && IsCut(h, from, l)
    ensures k == l
  {
  }

  method MicroCompact(h: History) returns (r: History)
    ensures r == Micro(h)
  {
    if |h| <= 2 {
      return h;
    }
    var k := AdvancePast(h, |h| / 2);
    r := [h[0]] + h[k..];
  }

  const MAX_FAILURES := 3

  /** A model reply was asked for and was of no use. */
  predicate Useless(h: History, s: Summary) {
    |h| >= 10 && (s.Failed? || Blank(s.text))
  }

  /** The consecutive failures after one Compact call. */
  function FailuresAfter(failures: nat, h: History, s: Summary): nat {
    if |h| < 10 then failures else if Useless(h, s) then failures + 1 else 0
  }

  /** The breaker is closed and the messages exceed their share of the window. */
  predicate Due(failures: nat, h: History, maxTokens: int, threshold: real) {
    failures < MAX_FAILURES && Tokens(h) as real > maxTokens as real * threshold
  }

  class LLMCompactor {
    var failureCount: nat

    constructor ()
      ensures failureCount == 0
    {
      failureCount := 0;
    }

    method ShouldCompact(h: History, maxTokens: int, threshold: real) returns (should: bool)
      ensures should <==> Due(failureCount, h, maxTokens, threshold)
    {
      if failureCount >= MAX_FAILURES {
        return false;
      }
      var total := 0;
      for i := 0 to |h|
        invariant total == Tokens(h[..i])
      {
        assert h[..i + 1][..i] == h[..i];
        total := total + h[i].tokens;
      }
      assert h[..|h|] == h;
      should := total as real > maxTokens as real * threshold;
    }

    /** Compact; None is the error return. */
    method Compact(h: History, summary: Summary) returns (r: Option<History>)
      modifies this
      ensures r == Compacted(h, summary)
      ensures failureCount == FailuresAfter(old(failureCount), h, summary)
    {
      if |h| < 4 {
        return Some(h);
      }
      if |h| < 10 {
        var out := MicroCompact(h);
        return Some(out);
      }
      if summary.Failed? {
        failureCount := failureCount + 1;
        return None;
      }
      if Blank(summary.text) {
        failureCount := failureCount + 1;
        var out := MicroCompact(h);
        return Some(out);
      }
      failureCount := 0;
      var k := AdvancePast(h, |h| * 2 / 3);
      r := Some([SummaryMessage(summary.text)] + h[k..]);
    }
  }

  // ----- What a successful compaction guarantees -----

  /** r is what a successful Compact of h can return. */
  ghost predicate Compacts(h: History, r: History) {
    exists s :: Compacted(h, s) == Some(r)
  }

  /** Compact fails only when the model call does, and then nothing is lost. */
  lemma CompactFailsExactly(h: History, s: Summary)
    ensures Compacted(h, s).None? <==> |h| >= 10 && s.Failed?
  {
  }

  /** One head message and a tail of the input that does not begin with a result;
      the head is the original opening message or a synthetic user message. */
  lemma CompactedShape(h: History, r: History) returns (head: Message, k: nat)
    requires |h| >= 4 && Compacts(h, r)
    ensures 2 <= k <= |h| && r == [head] + h[k..]
    ensures k < |h| ==> !IsResult(h[k])
    ensures head == h[0] ||
            (head.role == User && Plain(head) && |head.content| == 1 && head.content[0].Text? && !Blank(head.content[0].text))
  {
    var s :| Compacted(h, s) == Some(r);
    if |h| < 10 || Blank(s.text) {
      head, k := h[0], Cut(h, |h| / 2);
    } else {
      head, k := SummaryMessage(s.text), Cut(h, |h| * 2 / 3);
      var c :| c in s.text && !Space(c);
      assert c in PREFIX + s.text;
    }
  }

  /** What Compact returns, case by case: short histories as they are; histories of up to
      nine messages, and longer ones with a blank summary, as the opening message and the
      recent half; and otherwise the summary as a user message and the recent third. The
      tail always starts at the first message from there on that is no tool result. */
  lemma CompactedExactly(h: History, s: Summary) returns (k: nat)
    ensures |h| < 4 ==> Compacted(h, s) == Some(h)
    ensures |h| >= 10 && s.Failed? ==> Compacted(h, s) == None
    ensures |h| >= 4 && (|h| < 10 || (s.Summarized? && Blank(s.text))) ==>
              IsCut(h, |h| / 2, k) && Compacted(h, s) == Some([h[0]] + h[k..])
    ensures |h| >= 10 && s.Summarized? && !Blank(s.text) ==>
              IsCut(h, |h| * 2 / 3, k) &&
              Compacted(h, s) == Some([Message(User, [Text("[Prior conversation summary]\n" + s.text)], 0, "")] + h[k..])
  {
    k := if |h| >= 10 && s.Summarized? && !Blank(s.text) then Cut(h, |h| * 2 / 3) else Cut(h, |h| / 2);
  }

  lemma CompactionShortens(h: History, r: History)
    requires |h| >= 4 && Compacts(h, r)
    ensures 1 <= |r| < |h|
  {
  }

  /** Compaction keeps a sound history sound. */
  lemma CompactionKeepsSound(h: History, r: History)
    requires Sound(h) && Compacts(h, r)
    ensures Sound(r)
  {
    if |h| >= 4 {
      var head, k := CompactedShape(h, r);
      PairedCut(h, k);
      PlainIsPaired(head);
      PairedJoin([head], h[k..]);
    }
  }

  /** A chain of successful compactions, each of a history long enough to compact. */
  ghost predicate Chain(hs: seq<History>) {
    forall i :: 0 <= i < |hs| - 1 ==> |hs[i]| >= 4 && Compacts(hs[i], hs[i + 1])
  }

  /** Repeated compaction runs out: each link costs at least one message, and every
      history of the chain is as sound as the first. */
  lemma {:induction false} CompactionTerminates(hs: seq<History>)
    requires hs != [] && Chain(hs)
    ensures |hs| - 1 + |hs[|hs| - 1]| <= |hs[0]|
    ensures Sound(hs[0]) ==> Sound(hs[|hs| - 1])
    decreases |hs|
  {
    if |hs| > 1 {
      hide Sound, Compacts;
      var n := |hs| - 1;
      CompactionTerminates(hs[..n]);
      CompactionShortens(hs[n - 1], hs[n]);
      if Sound(hs[0]) {
        CompactionKeepsSound(hs[n - 1], hs[n]);
      }
    }
  }

  /** The failure count after a run of Compact calls. */
  function FailuresOver(failures: nat, calls: seq<(History, Summary)>): nat {
    if calls == [] then failures
    else
      var c := calls[|calls| - 1];
      FailuresAfter(FailuresOver(failures, calls[..|calls| - 1]), c.0, c.1)
  }

  /** Among calls that reached the model, how many useless replies came last in a row. */
  function UselessTail(calls: seq<(History, Summary)>): nat {
    if calls == [] then 0
    else
      var c, front := calls[|calls| - 1], calls[..|calls| - 1];
      if |c.0| < 10 then UselessTail(front)
      else if Useless(c.0, c.1) then UselessTail(front) + 1
      else 0
  }

  /** Some call of the run got a usable summary. */
  predicate SomeUsable(calls: seq<(History, Summary)>) {
    exists c :: c in calls && |c.0| >= 10 && !Useless(c.0, c.1)
  }

  /** The breaker opens exactly at three useless replies in a row; short histories do not interrupt the row. */
  lemma {:induction false} BreakerCountsRow(failures: nat, calls: seq<(History, Summary)>)
    ensures FailuresOver(failures, calls) == UselessTail(calls) + if SomeUsable(calls) then 0 else failures
  {
    if calls != [] {
      var n := |calls| - 1;
      BreakerCountsRow(failures, calls[..n]);
      assert calls == calls[..n] + [calls[n]];
    }
  }
}

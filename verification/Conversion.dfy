/** From session history to wire messages (convertMessages and convertSingleMessage
    in internal/provider/bifrost/adapter.go), the pre-flight shape check
    (internal/engine/loop/loop.go), and what sanitising does to a paired history. */
module Conversion {
  import opened Common
  import opened Conversation
  import Wire

  // ----- One message -----

  function FirstResult(content: seq<Block>): (r: Option<Block>)
    ensures r.None? <==> forall b :: b in content ==> !b.ToolResult?
    ensures r.Some? ==> r.value in content && r.value.ToolResult?
  {
    if content == [] then None
    else if content[0].ToolResult? then Some(content[0])
    else FirstResult(content[1..])
  }

  const IMAGE_NOTE :=
    ". This model cannot view images directly; pass the saved path to an image-capable tool "
    + "(e.g. video_create's image_path) when processing is needed.]"

  function ImageFallback(b: Block): string
    requires b.Image?
  {
    "[User attached an image"
    + (if b.mediaType != "" then " (" + b.mediaType + ")" else "")
    + (if b.filePath != "" then ", saved at: " + b.filePath else "")
    + IMAGE_NOTE
  }

  function ImageUrl(b: Block): string
    requires b.Image?
  {
    if b.url == "" && b.data != "" then "data:" + b.mediaType + ";base64," + b.data else b.url
  }

  /** The content parts one block contributes. */
  function Parts(b: Block, visionOK: bool): seq<Wire.Block> {
    match b
    case Text(text) => if text != "" then [Wire.TextBlock(Some(text))] else []
    case ToolUse(_, _, _) => []
    case ToolResult(_, _, _, _) => []
    case Image(_, _, _, filePath) =>
      if !visionOK then [Wire.TextBlock(Some(ImageFallback(b)))]
      else if ImageUrl(b) == "" then []
      else [Wire.ImageBlock(ImageUrl(b), true)]
           + if filePath != "" then [Wire.TextBlock(Some("[image saved at: " + filePath + "]"))] else []
    case File(mediaType, data, url, filename) =>
      if data == "" && url == "" then [] else [Wire.FileBlock(data, url, filename, mediaType, true)]
  }

  function PartsOf(content: seq<Block>, visionOK: bool): seq<Wire.Block> {
    if content == [] then []
    else PartsOf(content[..|content| - 1], visionOK) + Parts(content[|content| - 1], visionOK)
  }

  function CallsIn(content: seq<Block>): seq<Wire.ToolCall> {
    if content == [] then []
    else
      var b := content[|content| - 1];
      CallsIn(content[..|content| - 1]) + if b.ToolUse? then [Wire.ToolCall(Some(b.id), Some(b.name), b.input)] else []
  }

  function MapRole(r: Role): Wire.Role {
    match r case User => Wire.User case Assistant => Wire.Assistant case System => Wire.System
  }

  function ContentOf(parts: seq<Wire.Block>): Wire.Content {
    if |parts| == 1 && parts[0].TextBlock? && parts[0].text.Some? then Wire.Str(parts[0].text.value)
    else if parts != [] then Wire.Blocks(parts)
    else Wire.NoContent
  }

  function AssistantPartOf(m: Message, calls: seq<Wire.ToolCall>, includeReasoning: bool): Option<Wire.AssistantPart> {
    var echo := includeReasoning && m.reasoning != "";
    if m.role == Assistant && (calls != [] || echo)
    then Some(Wire.AssistantPart(calls, Some(if echo then m.reasoning else "")))
    else None
  }

  function ToWire(m: Message, includeReasoning: bool, visionOK: bool): Wire.Message {
    var result := FirstResult(m.content);
    if result.Some? then
      Wire.Message(Wire.Tool, Wire.Str(result.value.output), None, Some(result.value.id))
    else
      Wire.Message(MapRole(m.role), ContentOf(PartsOf(m.content, visionOK)),
                   AssistantPartOf(m, CallsIn(m.content), includeReasoning), None)
  }

  method ConvertSingle(m: Message, includeReasoning: bool, visionOK: bool) returns (w: Wire.Message)
    ensures w == ToWire(m, includeReasoning, visionOK)
  {
    for i := 0 to |m.content|
      invariant forall b :: b in m.content[..i] ==> !b.ToolResult?
    {
      if m.content[i].ToolResult? {
        FirstResultAt(m.content, i);
        return Wire.Message(Wire.Tool, Wire.Str(m.content[i].output), None, Some(m.content[i].id));
      }
    }
    assert m.content[..|m.content|] == m.content;
    var parts: seq<Wire.Block>, calls: seq<Wire.ToolCall> := [], [];
    for i := 0 to |m.content|
      invariant parts == PartsOf(m.content[..i], visionOK) && calls == CallsIn(m.content[..i])
    {
      assert m.content[..i + 1][..i] == m.content[..i];
      var b := m.content[i];
      if b.ToolUse? {
        calls := calls + [Wire.ToolCall(Some(b.id), Some(b.name), b.input)];
      } else {
        parts := parts + Parts(b, visionOK);
      }
    }
    w := Wire.Message(MapRole(m.role), ContentOf(parts), AssistantPartOf(m, calls, includeReasoning), None);
  }

  lemma {:induction false} FirstResultAt(content: seq<Block>, i: nat)
    requires i < |content| && content[i].ToolResult? && forall b :: b in content[..i] ==> !b.ToolResult?
    ensures FirstResult(content) == Some(content[i])
  {
    if i > 0 {
      assert content[0] in content[..i];
      assert content[1..][..i - 1] == content[..i][1..];
      FirstResultAt(content[1..], i - 1);
    }
  }

  // ----- What the wire form keeps -----

  lemma {:induction false} PartsInOrder(a: seq<Block>, b: seq<Block>, visionOK: bool)
    ensures PartsOf(a + b, visionOK) == PartsOf(a, visionOK) + PartsOf(b, visionOK)
    decreases |b|
  {
    hide Parts;
    if b == [] {
      assert a + b == a;
    } else {
      assert (a + b)[..|a + b| - 1] == a + b[..|b| - 1];
      PartsInOrder(a, b[..|b| - 1], visionOK);
    }
  }

  lemma {:induction false} CallsInOrder(a: seq<Block>, b: seq<Block>)
    ensures CallsIn(a + b) == CallsIn(a) + CallsIn(b)
    decreases |b|
  {
    if b == [] {
      assert a + b == a;
    } else {
      assert (a + b)[..|a + b| - 1] == a + b[..|b| - 1];
      CallsInOrder(a, b[..|b| - 1]);
    }
  }

  /** A call goes out with its id, name and input, and nothing else becomes a call. */
  lemma CallReads(b: Block)
    ensures CallsIn([b]) == if b.ToolUse? then [Wire.ToolCall(Some(b.id), Some(b.name), b.input)] else []
  {
    assert [b][..0] == [];
  }

  /** s contains t. */
  ghost predicate Mentions(s: string, t: string) {
    exists i :: MentionedAt(s, t, i)
  }

  predicate MentionedAt(s: string, t: string, i: int) {
    0 <= i <= |s| - |t| && s[i..i + |t|] == t
  }

  predicate IsText(p: Wire.Block) {
    p.TextBlock? && p.text.Some? && p.text.value != ""
  }

  /** What the parts of one block are: a non-empty text is sent as it is and an empty one not
      at all; a model without vision gets no image but a note that mentions the saved path; a
      model with vision gets the image and, when there is one, a note on the path; a file needs
      data or a url. */
  ghost predicate SentAs(b: Block, visionOK: bool, parts: seq<Wire.Block>) {
    && (b.Text? && b.text != "" ==> parts == [Wire.TextBlock(Some(b.text))])
    && (b.Text? && b.text == "" ==> parts == [])
    && (b.ToolUse? || b.ToolResult? ==> parts == [])
    && (b.Image? && !visionOK ==>
          && |parts| == 1 && IsText(parts[0])
          && Mentions(parts[0].text.value, b.filePath) && Mentions(parts[0].text.value, b.mediaType))
    && (b.Image? && visionOK ==> if b.url == "" && b.data == "" then parts == []
                                 else parts != [] && SentImage(b, parts[0]) && NotedPath(b, parts[1..]))
    && (b.File? ==> if b.data == "" && b.url == "" then parts == []
                    else parts == [Wire.FileBlock(b.data, b.url, b.filename, b.mediaType, true)])
  }

  /** The url of an image is its own, or holds its data when it has none. */
  ghost predicate SentImage(b: Block, p: Wire.Block)
    requires b.Image?
  {
    && p.ImageBlock? && (b.url != "" ==> p == Wire.ImageBlock(b.url, true))
    && (b.url == "" ==> Mentions(p.url, b.mediaType) && exists head :: p == Wire.ImageBlock(head + ";base64," + b.data, true))
  }

  ghost predicate NotedPath(b: Block, rest: seq<Wire.Block>)
    requires b.Image?
  {
    if b.filePath == "" then rest == [] else |rest| == 1 && IsText(rest[0]) && Mentions(rest[0].text.value, b.filePath)
  }

  lemma Mentioned(pre: string, t: string, post: string)
    ensures Mentions(pre + t + post, t)
  {
    assert MentionedAt(pre + t + post, t, |pre|);
  }

  lemma MentionedLater(pre: string, s: string, post: string, t: string)
    requires Mentions(s, t)
    ensures Mentions(pre + s, t) && Mentions(s + post, t)
  {
    var i :| MentionedAt(s, t, i);
    assert (pre + s)[|pre| + i..|pre| + i + |t|] == s[i..i + |t|];
    assert MentionedAt(pre + s, t, |pre| + i);
    assert (s + post)[i..i + |t|] == s[i..i + |t|];
    assert MentionedAt(s + post, t, i);
  }

  lemma NothingMentioned(s: string)
    ensures Mentions(s, "")
  {
    assert MentionedAt(s, "", 0);
  }

  lemma BlockReads(b: Block, visionOK: bool)
    ensures SentAs(b, visionOK, PartsOf([b], visionOK))
  {
    assert [b][..0] == [] && PartsOf([b], visionOK) == Parts(b, visionOK);
    if b.Image? {
      hide Mentions;
      if visionOK {
        if b.url != "" || b.data != "" {
          ImageReads(b);
        }
      } else {
        FallbackReads(b);
      }
    }
  }

  lemma FallbackReads(b: Block)
    requires b.Image?
    ensures ImageFallback(b) != "" && Mentions(ImageFallback(b), b.filePath) && Mentions(ImageFallback(b), b.mediaType)
  {
    hide Mentions;
    var kind := if b.mediaType != "" then " (" + b.mediaType + ")" else "";
    var path := if b.filePath != "" then ", saved at: " + b.filePath else "";
    KindMentions(b.mediaType);
    PathMentions(b.filePath);
    NoteMentions("[User attached an image", kind, path, IMAGE_NOTE, b.mediaType, b.filePath);
  }

  lemma KindMentions(t: string)
    ensures Mentions(if t != "" then " (" + t + ")" else "", t)
  {
    hide Mentions;
    Mentioned(" (", t, ")");
    NothingMentioned("");
  }

  lemma PathMentions(t: string)
    ensures Mentions(if t != "" then ", saved at: " + t else "", t)
  {
    hide Mentions;
    Mentioned(", saved at: ", t, "");
    assert ", saved at: " + t + "" == ", saved at: " + t;
    NothingMentioned("");
  }

  lemma NoteMentions(start: string, kind: string, path: string, end: string, t: string, u: string)
    requires Mentions(kind, t) && Mentions(path, u)
    ensures Mentions(start + kind + path + end, t) && Mentions(start + kind + path + end, u)
  {
    hide Mentions;
    MentionedLater(start, kind, path, t);
    MentionedLater(start, start + kind, path, t);
    MentionedLater(start, start + kind + path, end, t);
    MentionedLater(start + kind, path, end, u);
    MentionedLater(start, start + kind + path, end, u);
  }

  lemma ImageReads(b: Block)
    requires b.Image? && !(b.url == "" && b.data == "")
    ensures SentImage(b, Wire.ImageBlock(ImageUrl(b), true)) && ImageUrl(b) != ""
    ensures b.filePath != "" ==> Mentions("[image saved at: " + b.filePath + "]", b.filePath)
  {
    hide Mentions;
    Mentioned("[image saved at: ", b.filePath, "]");
    if b.url == "" {
      assert ImageUrl(b) == ("data:" + b.mediaType) + ";base64," + b.data;
      Mentioned("data:", b.mediaType, ";base64," + b.data);
      assert ImageUrl(b) == "data:" + b.mediaType + (";base64," + b.data);
    }
  }

  /** A message that holds a result becomes the tool message for its first result and nothing
      else of it is sent. Any other keeps its role; one text is sent plainly and other parts as
      blocks; an assistant has a part when it calls a tool or its reasoning is to be echoed. */
  ghost predicate SentMessage(m: Message, includeReasoning: bool, visionOK: bool, w: Wire.Message) {
    if IsResult(m) then
      w.role == Wire.Tool && w.assistant.None?
      && exists i :: FirstAt(m, i) && w.content == Wire.Str(m.content[i].output) && w.toolCallId == Some(m.content[i].id)
    else
      var parts, calls := PartsOf(m.content, visionOK), CallsIn(m.content);
      var echo := includeReasoning && m.reasoning != "";
      && w.toolCallId.None? && (m.role == User <==> w.role == Wire.User)
      && (m.role == Assistant <==> w.role == Wire.Assistant) && (m.role == System <==> w.role == Wire.System)
      && (parts == [] <==> w.content == Wire.NoContent)
      && (forall t :: parts == [Wire.TextBlock(Some(t))] <==> w.content == Wire.Str(t))
      && (w.content.Blocks? ==> w.content.blocks == parts)
      && (w.assistant.Some? <==> m.role == Assistant && (calls != [] || echo))
      && (w.assistant.Some? ==> w.assistant.value.toolCalls == calls
                                && w.assistant.value.reasoning == Some(if echo then m.reasoning else ""))
  }

  ghost predicate FirstAt(m: Message, i: int) {
    0 <= i < |m.content| && m.content[i].ToolResult? && forall j :: 0 <= j < i ==> !m.content[j].ToolResult?
  }

  lemma WireReads(m: Message, includeReasoning: bool, visionOK: bool)
    ensures SentMessage(m, includeReasoning, visionOK, ToWire(m, includeReasoning, visionOK))
  {
    if IsResult(m) {
      var i := FirstResultIndex(m.content);
      assert forall j :: 0 <= j < i ==> m.content[j] in m.content[..i];
      FirstResultAt(m.content, i);
      assert FirstAt(m, i);
    } else {
      hide PartsOf, CallsIn;
    }
  }

  lemma {:induction false} FirstResultIndex(content: seq<Block>) returns (i: nat)
    requires exists b :: b in content && b.ToolResult?
    ensures i < |content| && content[i].ToolResult? && forall b :: b in content[..i] ==> !b.ToolResult?
  {
    if content[0].ToolResult? {
      i := 0;
    } else {
      i := FirstResultIndex(content[1..]);
      i := i + 1;
      assert content[..i] == [content[0]] + content[1..][..i - 1];
    }
  }

  // ----- The whole history -----

  /** System messages in the history are skipped. */
  function Visible(h: History): History {
    if h == [] then [] else (if h[0].role == System then [] else [h[0]]) + Visible(h[1..])
  }

  function Prompt(systemPrompt: string): seq<Wire.Message> {
    if systemPrompt == "" then [] else [Wire.Message(Wire.System, Wire.Str(systemPrompt), None, None)]
  }

  function WireForms(v: History, includeReasoning: bool, visionOK: bool): (r: seq<Wire.Message>)
    ensures |r| == |v| && forall i :: 0 <= i < |r| ==> r[i] == ToWire(v[i], includeReasoning, visionOK)
  {
    seq(|v|, i requires 0 <= i < |v| => ToWire(v[i], includeReasoning, visionOK))
  }

  /** The wire messages before sanitising. */
  function Converted(h: History, systemPrompt: string, includeReasoning: bool, visionOK: bool): seq<Wire.Message> {
    Prompt(systemPrompt) + WireForms(Visible(h), includeReasoning, visionOK)
  }

  lemma {:induction false} VisibleAppend(h: History, m: Message)
    ensures Visible(h + [m]) == Visible(h) + if m.role == System then [] else [m]
  {
    if h == [] {
      assert h + [m] == [m];
    } else {
      VisibleAppend(h[1..], m);
      assert (h + [m])[1..] == h[1..] + [m];
    }
  }

  /** The prompt goes first, when there is one, and then every message that is not a system
      message, in order. */
  lemma ConvertedReads(h: History, systemPrompt: string, includeReasoning: bool, visionOK: bool)
    ensures var w := Converted(h, systemPrompt, includeReasoning, visionOK);
            var k := if systemPrompt == "" then 0 else 1;
            && |w| == k + |Visible(h)|
            && (k == 1 ==> w[0] == Wire.Message(Wire.System, Wire.Str(systemPrompt), None, None))
            && forall i :: 0 <= i < |Visible(h)| ==> SentMessage(Visible(h)[i], includeReasoning, visionOK, w[k + i])
  {
    ConvertedStart(h, systemPrompt, includeReasoning, visionOK);
    hide Converted, Prompt, SentMessage, Visible;
    forall i | 0 <= i < |Visible(h)|
      ensures SentMessage(Visible(h)[i], includeReasoning, visionOK,
                          Converted(h, systemPrompt, includeReasoning, visionOK)[|Prompt(systemPrompt)| + i])
    {
      ConvertedAt(h, systemPrompt, includeReasoning, visionOK, i);
    }
  }

  lemma ConvertedStart(h: History, systemPrompt: string, includeReasoning: bool, visionOK: bool)
    ensures var w, k := Converted(h, systemPrompt, includeReasoning, visionOK), |Prompt(systemPrompt)|;
            && |w| == k + |Visible(h)| && k == (if systemPrompt == "" then 0 else 1)
            && (k == 1 ==> w[0] == Wire.Message(Wire.System, Wire.Str(systemPrompt), None, None))
  {
    hide ToWire, Visible;
  }

  lemma ConvertedAt(h: History, systemPrompt: string, includeReasoning: bool, visionOK: bool, i: nat)
    requires i < |Visible(h)|
    ensures var w, k := Converted(h, systemPrompt, includeReasoning, visionOK), |Prompt(systemPrompt)|;
            k + i < |w| && SentMessage(Visible(h)[i], includeReasoning, visionOK, w[k + i])
  {
    hide SentMessage, ToWire, Visible;
    WireReads(Visible(h)[i], includeReasoning, visionOK);
  }

  lemma EmptyVisible(systemPrompt: string, includeReasoning: bool, visionOK: bool)
    ensures Converted([], systemPrompt, includeReasoning, visionOK) == Prompt(systemPrompt)
  {
  }

  method ConvertMessages(h: History, systemPrompt: string, includeReasoning: bool, visionOK: bool, valid: string -> bool)
    returns (w: seq<Wire.Message>)
    ensures exists marks :: Wire.Capped(Wire.Sanitized(Converted(h, systemPrompt, includeReasoning, visionOK), valid), w, marks)
  {
    hide ToWire, Visible, Wire.Sanitized, Wire.Capped;
    w := Prompt(systemPrompt);
    EmptyVisible(systemPrompt, includeReasoning, visionOK);
    for i := 0 to |h|
      invariant w == Converted(h[..i], systemPrompt, includeReasoning, visionOK)
    {
      assert h[..i + 1] == h[..i] + [h[i]];
      VisibleAppend(h[..i], h[i]);
      if h[i].role == System {
        continue;
      }
      var one := ConvertSingle(h[i], includeReasoning, visionOK);
      w := w + [one];
    }
    assert h[..|h|] == h;
    w := Wire.SanitizeToolSequence(w, valid);
    w := Wire.CapCacheBreakpoints(w);
  }

  // ----- Pre-flight check -----

  datatype Issue = FirstNotUser | NoBlocks(i: nat) | EmptyText(i: nat, block: nat) | OrphanResult(i: nat, block: nat)

  /** The ids the nearest assistant at or before message i opened. */
  function NearestOpens(h: History, i: int): set<string>
    requires -1 <= i < |h|
    decreases i + 1
  {
    if i < 0 then {} else if h[i].role == Assistant then Opens(h[i]) else NearestOpens(h, i - 1)
  }

  ghost predicate IsIssue(h: History, x: Issue) {
    match x
    case FirstNotUser => h != [] && h[0].role != User
    case NoBlocks(i) => i < |h| && h[i].content == []
    case EmptyText(i, b) => i < |h| && b < |h[i].content| && h[i].content[b] == Text("")
    case OrphanResult(i, b) => i < |h| && OrphanAt(h, i, b)
  }

  ghost predicate OrphanAt(h: History, i: nat, b: nat)
    requires i < |h|
  {
    && b < |h[i].content| && h[i].content[b].ToolResult? && h[i].role == User
    && (h[i].content[b].id == "" || h[i].content[b].id !in NearestOpens(h, i))
  }

  /** preflightValidateMessages reports exactly the four kinds of trouble. */
  method Preflight(h: History) returns (issues: seq<Issue>)
    ensures forall x :: x in issues <==> IsIssue(h, x)
  {
    issues := [];
    if h == [] {
      return;
    }
    if h[0].role != User {
      issues := [FirstNotUser];
    }
    var open: set<string> := {};
    for i := 0 to |h|
      invariant open == NearestOpens(h, i - 1) - {""}
      invariant forall x :: x in issues <==> IsIssue(h, x) && (x.FirstNotUser? || x.i < i)
    {
      var m := h[i];
      if m.role == Assistant {
        open := set b | b in m.content && b.ToolUse? && b.id != "" :: b.id;
      }
      if m.content == [] {
        issues := issues + [NoBlocks(i)];
        continue;
      }
      for j := 0 to |m.content|
        invariant forall x :: x in issues <==>
                    IsIssue(h, x) && (x.FirstNotUser? || x.i < i || (x.i == i && !x.NoBlocks? && x.block < j))
      {
        var b := m.content[j];
        if b.Text? {
          if b.text == "" {
            issues := issues + [EmptyText(i, j)];
          }
        } else if b.ToolResult? && m.role == User && b.id !in open {
          issues := issues + [OrphanResult(i, j)];
        }
      }
    }
  }

  lemma {:induction false} NearestIsOwner(h: History, a: nat, i: nat)
    requires a <= i < |h| && h[a].role == Assistant && forall k :: a < k <= i ==> h[k].role != Assistant
    ensures NearestOpens(h, i) == Opens(h[a])
    decreases i
  {
    if a < i {
      NearestIsOwner(h, a, i - 1);
    }
  }

  lemma ClaimedNearby(h: History, i: nat)
    requires Paired(h) && i < |h| && IsResult(h[i])
    ensures SingleResult(h[i]) && AnswerId(h[i]) in NearestOpens(h, i)
  {
    assert Claimed(h, i);
    var a :| Answers(h, a, i);
    forall k | a < k <= i ensures h[k].role != Assistant {
      assert Claimed(h, k);
    }
    NearestIsOwner(h, a, i);
  }

  predicate NoEmptyId(h: History) {
    forall m :: m in h ==> "" !in Opens(m)
  }

  /** A sound history never trips the first-message rule, and trips the orphan rule
      exactly when some call has an empty id. */
  lemma PreflightOnSound(h: History)
    requires Sound(h)
    ensures !IsIssue(h, FirstNotUser)
    ensures (exists i: nat, b: nat :: IsIssue(h, OrphanResult(i, b))) <==> !NoEmptyId(h)
  {
    forall i: nat, b: nat | IsIssue(h, OrphanResult(i, b)) ensures !NoEmptyId(h) {
      OrphanIsEmptyId(h, i, b);
    }
    if !NoEmptyId(h) {
      var i := EmptyIdHasResult(h);
      hide Paired, NoEmptyId, Opens;
      assert IsIssue(h, OrphanResult(i, 0));
    }
  }

  lemma OrphanIsEmptyId(h: History, i: nat, b: nat)
    requires Paired(h) && i < |h| && OrphanAt(h, i, b)
    ensures !NoEmptyId(h)
  {
    assert h[i].content[b] in h[i].content;
    ClaimedNearby(h, i);
    assert AnswerId(h[i]) == "";
    hide Paired, NearestOpens, Opens, IsResult, SingleResult, OrphanAt;
    var a := OwnerOf(h, i);
    assert h[a] in h;
  }

  lemma OwnerOf(h: History, i: nat) returns (a: nat)
    requires Paired(h) && i < |h| && IsResult(h[i])
    ensures a < |h| && AnswerId(h[i]) in Opens(h[a])
  {
    assert Claimed(h, i);
    hide Opens, IsResult;
    a :| Answers(h, a, i);
  }

  // ----- Sanitising a paired history -----

  /** Skipping system messages keeps a history paired. */
  lemma {:induction false} SkipKeepsPaired(pre: History, h: History)
    requires Paired(pre + h)
    ensures Paired(pre + Visible(h))
    decreases |h|
  {
    if h != [] {
      VisibleFirst(pre, h);
      hide *;
      if h[0].role == System {
        SkipOne(pre, h);
        SkipKeepsPaired(pre, h[1..]);
      } else {
        SkipKeepsPaired(pre + [h[0]], h[1..]);
      }
    }
  }

  lemma VisibleFirst(pre: History, h: History)
    requires h != []
    ensures pre + h == (pre + [h[0]]) + h[1..]
    ensures if h[0].role == System then Visible(h) == Visible(h[1..]) else pre + Visible(h) == (pre + [h[0]]) + Visible(h[1..])
  {
    VisibleStep(h);
    hide *;
    assert h == [h[0]] + h[1..];
    Regroup(pre, h[0], h[1..]);
    Regroup(pre, h[0], Visible(h[1..]));
  }

  lemma Regroup(pre: History, m: Message, rest: History)
    ensures pre + ([m] + rest) == (pre + [m]) + rest
  {
  }

  lemma VisibleStep(h: History)
    requires h != []
    ensures Visible(h) == if h[0].role == System then Visible(h[1..]) else [h[0]] + Visible(h[1..])
  {
  }

  lemma SkipOne(pre: History, h: History)
    requires Paired(pre + h) && h != [] && h[0].role == System
    ensures Paired(pre + h[1..])
  {
    hide Paired, Plain;
    SystemIsPlain(pre + h, |pre|);
    PlainIsNoResult((pre + h)[|pre|]);
    PairedCut(pre + h, |pre|);
    assert (pre + h)[..|pre|] == pre && (pre + h)[|pre|..] == h;
    RestOfSystem(h);
    PairedJoin(pre, h[1..]);
  }

  lemma PlainIsNoResult(m: Message)
    ensures Plain(m) ==> !IsResult(m)
  {
  }

  lemma SystemIsPlain(h: History, i: nat)
    requires Paired(h) && i < |h| && h[i].role == System
    ensures Plain(h[i])
  {
  }

  lemma RestOfSystem(h: History)
    requires Paired(h) && h != [] && h[0].role == System
    ensures Paired(h[1..])
  {
    if |h| > 1 {
      SystemIsPlain(h, 0);
      assert IsResult(h[1]) ==> Claimed(h, 1);
      PairedCut(h, 1);
    }
  }

  lemma {:induction false} CallsInMembers(content: seq<Block>)
    ensures forall tc :: tc in CallsIn(content) <==>
              exists b :: b in content && b.ToolUse? && tc == Wire.ToolCall(Some(b.id), Some(b.name), b.input)
  {
    if content != [] {
      var n := |content| - 1;
      CallsInMembers(content[..n]);
      assert content == content[..n] + [content[n]];
    }
  }

  /** The wire form of a message opens the ids that the message opens. */
  lemma WireOpens(m: Message, includeReasoning: bool, visionOK: bool)
    requires !IsResult(m)
    ensures var calls := Wire.CallsOf(ToWire(m, includeReasoning, visionOK));
            && (forall tc :: tc in calls ==> tc.id.Some? && tc.id.value in Opens(m))
            && (forall id :: id in Opens(m) ==> exists tc :: tc in calls && tc.id == Some(id))
  {
    CallsInMembers(m.content);
    var calls := Wire.CallsOf(ToWire(m, includeReasoning, visionOK));
    if m.role == Assistant {
      assert calls == CallsIn(m.content);
      forall id | id in Opens(m) ensures exists tc :: tc in calls && tc.id == Some(id) {
        var b :| b in m.content && b.ToolUse? && b.id == id;
        assert Wire.ToolCall(Some(b.id), Some(b.name), b.input) in calls;
      }
    }
  }

  lemma WireResult(m: Message, includeReasoning: bool, visionOK: bool)
    ensures IsResult(m) <==> ToWire(m, includeReasoning, visionOK).role == Wire.Tool
    ensures SingleResult(m) ==> IsResult(m) && Wire.AnswerId(ToWire(m, includeReasoning, visionOK)) == AnswerId(m)
  {
  }

  // The wire messages of a paired, system-free history, seen from the sanitiser.

  lemma ResultIsNoOrphan(h: History, pre: seq<Wire.Message>, i: nat, includeReasoning: bool, visionOK: bool)
    requires Paired(h) && NoEmptyId(h) && i < |h| && IsResult(h[i])
    ensures var w := pre + WireForms(h, includeReasoning, visionOK);
            !Wire.Orphan(w[|pre| + i], Wire.OpenIds(w))
  {
    var w := pre + WireForms(h, includeReasoning, visionOK);
    assert Claimed(h, i);
    var a :| Answers(h, a, i);
    WireResult(h[i], includeReasoning, visionOK);
    NoResultOwner(h, a);
    WireOpens(h[a], includeReasoning, visionOK);
    var calls := Wire.CallsOf(w[|pre| + a]);
    var tc :| tc in calls && tc.id == Some(AnswerId(h[i]));
    assert h[a] in h;
    assert w[|pre| + a] in w && Wire.IdOf(tc) in Wire.OpenIds(w);
  }

  lemma NoResultOwner(h: History, a: nat)
    requires Paired(h) && a < |h| && Opens(h[a]) != {}
    ensures !IsResult(h[a])
  {
  }

  lemma CallIsAnswered(h: History, pre: seq<Wire.Message>, a: nat, tc: Wire.ToolCall, includeReasoning: bool, visionOK: bool)
    requires Paired(h) && NoEmptyId(h) && a < |h|
    requires tc in Wire.CallsOf(ToWire(h[a], includeReasoning, visionOK))
    ensures var w := pre + WireForms(h, includeReasoning, visionOK);
            Wire.Answered(tc, Wire.AnsweredIds(w, Wire.OpenIds(w)))
  {
    var w := pre + WireForms(h, includeReasoning, visionOK);
    WireResult(h[a], includeReasoning, visionOK);
    WireOpens(h[a], includeReasoning, visionOK);
    assert Closed(h, a, tc.id.value);
    var i :| AnswersId(h, a, i, tc.id.value);
    ResultIsNoOrphan(h, pre, i, includeReasoning, visionOK);
    WireResult(h[i], includeReasoning, visionOK);
    assert w[|pre| + i] in w;
  }

  lemma {:induction false} RepairOnlyUpto(w: seq<Wire.Message>, n: nat, valid: string -> bool)
    requires n <= |w|
    requires forall i :: 0 <= i < |w| ==> Wire.Fate(Wire.ContextOf(w), w[i], i, valid) == Some(Wire.Repair(w[i], valid))
    ensures Wire.SanitizedUpto(Wire.ContextOf(w), w, n, valid) == Wire.RepairAll(w, valid)[..n]
    decreases n
  {
    if n > 0 {
      RepairOnlyUpto(w, n - 1, valid);
      var all := Wire.RepairAll(w, valid);
      assert all[..n] == all[..n - 1] + [Wire.Repair(w[n - 1], valid)];
      hide Wire.Fate, Wire.Repair, Wire.ContextOf, Wire.RepairAll;
    }
  }

  /** Nothing happens to message k of the wire but argument repair. */
  lemma OnlyRepaired(h: History, pre: seq<Wire.Message>, k: nat, includeReasoning: bool, visionOK: bool, valid: string -> bool)
    requires Paired(h) && NoEmptyId(h) && k < |pre| + |h|
    requires forall m :: m in pre ==> m.role == Wire.System
    ensures var w := pre + WireForms(h, includeReasoning, visionOK);
            Wire.Fate(Wire.ContextOf(w), w[k], k, valid) == Some(Wire.Repair(w[k], valid))
  {
    var w := pre + WireForms(h, includeReasoning, visionOK);
    var c := Wire.ContextOf(w);
    if k >= |pre| {
      var i := k - |pre|;
      WireResult(h[i], includeReasoning, visionOK);
      if IsResult(h[i]) {
        ResultIsNoOrphan(h, pre, i, includeReasoning, visionOK);
      } else {
        var calls := Wire.CallsOf(w[k]);
        forall tc | tc in calls ensures Wire.Answered(tc, c.answered) {
          CallIsAnswered(h, pre, i, tc, includeReasoning, visionOK);
        }
        Wire.KeepAnsweredMembers(calls, c.answered);
      }
    }
  }

  /** For a paired history whose call ids are all non-empty, sanitising drops no
      message and strips no call: it only repairs broken arguments. */
  lemma SanitizeOnlyRepairs(h: History, systemPrompt: string, includeReasoning: bool, visionOK: bool, valid: string -> bool)
    requires Paired(h) && NoEmptyId(Visible(h))
    ensures var w := Converted(h, systemPrompt, includeReasoning, visionOK);
            Wire.Sanitized(w, valid) == Wire.RepairAll(w, valid)
  {
    var v := Visible(h);
    assert [] + h == h && [] + v == v;
    SkipKeepsPaired([], h);
    var pre := Prompt(systemPrompt);
    var w := pre + WireForms(v, includeReasoning, visionOK);
    forall k | 0 <= k < |w| ensures Wire.Fate(Wire.ContextOf(w), w[k], k, valid) == Some(Wire.Repair(w[k], valid)) {
      OnlyRepaired(v, pre, k, includeReasoning, visionOK, valid);
    }
    RepairOnlyUpto(w, |w|, valid);
  }

  lemma EmptyIdHasResult(v: History) returns (i: nat)
    requires Paired(v) && !NoEmptyId(v)
    ensures i < |v| && SingleResult(v[i]) && AnswerId(v[i]) == ""
  {
    var a :| 0 <= a < |v| && "" in Opens(v[a]);
    assert Closed(v, a, "");
    i :| AnswersId(v, a, i, "");
  }

  /** With an empty call id in it, a paired history does lose a message. */
  lemma EmptyIdIsLost(h: History, systemPrompt: string, includeReasoning: bool, visionOK: bool, valid: string -> bool)
    requires Paired(h) && !NoEmptyId(Visible(h))
    ensures var w := Converted(h, systemPrompt, includeReasoning, visionOK);
            Wire.Sanitized(w, valid) != Wire.RepairAll(w, valid)
  {
    hide Paired, Visible, ToWire, Wire.Sanitized, Wire.RepairAll, NoEmptyId;
    var v := Visible(h);
    assert [] + h == h && [] + v == v;
    SkipKeepsPaired([], h);
    var i := EmptyIdHasResult(v);
    WireResult(v[i], includeReasoning, visionOK);
    NamelessIsLost(Converted(h, systemPrompt, includeReasoning, visionOK), |Prompt(systemPrompt)| + i, valid);
  }

  lemma NamelessIsLost(w: seq<Wire.Message>, k: nat, valid: string -> bool)
    requires k < |w| && w[k].role == Wire.Tool && Wire.AnswerId(w[k]) == ""
    ensures Wire.Sanitized(w, valid) != Wire.RepairAll(w, valid)
  {
    hide Wire.Sanitized, Wire.OpenIds;
    assert Wire.RepairAll(w, valid)[k] == w[k];
    if Wire.Sanitized(w, valid) == Wire.RepairAll(w, valid) {
      Wire.ToolSurvives(w, k, valid);
    }
  }

  /** The sanitiser leaves a paired history whole exactly when no call id is empty. */
  lemma SanitizeKeepsPairedWhole(h: History, systemPrompt: string, includeReasoning: bool, visionOK: bool, valid: string -> bool)
    requires Paired(h)
    ensures var w := Converted(h, systemPrompt, includeReasoning, visionOK);
            Wire.Sanitized(w, valid) == Wire.RepairAll(w, valid) <==> NoEmptyId(Visible(h))
  {
    if NoEmptyId(Visible(h)) {
      SanitizeOnlyRepairs(h, systemPrompt, includeReasoning, visionOK, valid);
    } else {
      EmptyIdIsLost(h, systemPrompt, includeReasoning, visionOK, valid);
    }
  }

  // ----- What the provider sees -----

  ghost predicate Calls(m: Wire.Message, id: string) {
    exists tc :: tc in Wire.CallsOf(m) && tc.id == Some(id)
  }

  /** Tool message k directly follows, through other tool messages, the assistant that made its call. */
  ghost predicate Follows(w: seq<Wire.Message>, a: int, k: int) {
    && 0 <= a < k < |w|
    && Calls(w[a], Wire.AnswerId(w[k]))
    && forall j :: a < j <= k ==> w[j].role == Wire.Tool
  }

  ghost predicate HasOwner(w: seq<Wire.Message>, k: int) {
    exists a :: Follows(w, a, k)
  }

  ghost predicate FollowsId(w: seq<Wire.Message>, a: int, k: int, id: string) {
    Follows(w, a, k) && Wire.AnswerId(w[k]) == id
  }

  ghost predicate Served(w: seq<Wire.Message>, a: int, id: string) {
    exists k :: FollowsId(w, a, k, id)
  }

  /** The strict request shape: each tool message is in the block of the assistant that
      opened it, and each call is answered in the block after its assistant. */
  ghost predicate StrictlyPaired(w: seq<Wire.Message>) {
    && (forall k :: 0 <= k < |w| && w[k].role == Wire.Tool ==> HasOwner(w, k))
    && (forall a, tc :: 0 <= a < |w| && tc in Wire.CallsOf(w[a]) ==> tc.id.Some? && Served(w, a, tc.id.value))
  }

  lemma AnswersOnWire(v: History, pre: seq<Wire.Message>, a: nat, i: nat, includeReasoning: bool, visionOK: bool)
    requires Paired(v) && Answers(v, a, i)
    ensures FollowsId(pre + WireForms(v, includeReasoning, visionOK), |pre| + a, |pre| + i, AnswerId(v[i]))
  {
    var w := pre + WireForms(v, includeReasoning, visionOK);
    NoResultOwner(v, a);
    WireOpens(v[a], includeReasoning, visionOK);
    WireResult(v[i], includeReasoning, visionOK);
    forall j | |pre| + a < j <= |pre| + i ensures w[j].role == Wire.Tool {
      WireResult(v[j - |pre|], includeReasoning, visionOK);
    }
  }

  lemma CallServed(v: History, pre: seq<Wire.Message>, x: nat, tc: Wire.ToolCall, includeReasoning: bool, visionOK: bool)
    requires Paired(v) && x < |v| && tc in Wire.CallsOf(ToWire(v[x], includeReasoning, visionOK))
    ensures tc.id.Some? && Served(pre + WireForms(v, includeReasoning, visionOK), |pre| + x, tc.id.value)
  {
    WireResult(v[x], includeReasoning, visionOK);
    WireOpens(v[x], includeReasoning, visionOK);
    assert Closed(v, x, tc.id.value);
    hide Follows, Paired, WireForms, ToWire;
    var i :| AnswersId(v, x, i, tc.id.value);
    AnswersOnWire(v, pre, x, i, includeReasoning, visionOK);
  }

  lemma ResultOwned(v: History, pre: seq<Wire.Message>, i: nat, includeReasoning: bool, visionOK: bool)
    requires Paired(v) && i < |v| && ToWire(v[i], includeReasoning, visionOK).role == Wire.Tool
    ensures HasOwner(pre + WireForms(v, includeReasoning, visionOK), |pre| + i)
  {
    WireResult(v[i], includeReasoning, visionOK);
    assert Claimed(v, i);
    hide Follows, Paired, WireForms, ToWire;
    var a :| Answers(v, a, i);
    AnswersOnWire(v, pre, a, i, includeReasoning, visionOK);
  }

  lemma PairedOnWire(v: History, pre: seq<Wire.Message>, includeReasoning: bool, visionOK: bool)
    requires Paired(v) && forall m :: m in pre ==> m.role == Wire.System
    ensures StrictlyPaired(pre + WireForms(v, includeReasoning, visionOK))
  {
    hide Paired, ToWire, HasOwner, Served;
    var w := pre + WireForms(v, includeReasoning, visionOK);
    forall k | 0 <= k < |w| && w[k].role == Wire.Tool ensures HasOwner(w, k) {
      ResultOwned(v, pre, k - |pre|, includeReasoning, visionOK);
    }
    forall a, tc | 0 <= a < |w| && tc in Wire.CallsOf(w[a]) ensures tc.id.Some? && Served(w, a, tc.id.value) {
      CallServed(v, pre, a - |pre|, tc, includeReasoning, visionOK);
    }
  }

  lemma RepairKeepsIds(m: Wire.Message, valid: string -> bool)
    ensures var r := Wire.Repair(m, valid);
            && r.role == m.role && Wire.AnswerId(r) == Wire.AnswerId(m)
            && (forall id :: Calls(m, id) ==> Calls(r, id))
            && (forall t :: t in Wire.CallsOf(r) ==> exists tc :: tc in Wire.CallsOf(m) && tc.id == t.id)
  {
  }

  lemma RepairKeepsFollows(w: seq<Wire.Message>, a: int, k: int, id: string, valid: string -> bool)
    requires FollowsId(w, a, k, id)
    ensures FollowsId(Wire.RepairAll(w, valid), a, k, id)
  {
  }

  lemma RepairKeepsStrict(w: seq<Wire.Message>, valid: string -> bool)
    requires StrictlyPaired(w)
    ensures StrictlyPaired(Wire.RepairAll(w, valid))
  {
    hide Wire.Repair, Wire.CallsOf, Follows;
    var r := Wire.RepairAll(w, valid);
    forall k | 0 <= k < |r| && r[k].role == Wire.Tool ensures HasOwner(r, k) {
      RepairKeepsIds(w[k], valid);
      var a :| Follows(w, a, k);
      RepairKeepsFollows(w, a, k, Wire.AnswerId(w[k]), valid);
    }
    forall a, t | 0 <= a < |r| && t in Wire.CallsOf(r[a]) ensures t.id.Some? && Served(r, a, t.id.value) {
      RepairKeepsIds(w[a], valid);
      var tc :| tc in Wire.CallsOf(w[a]) && tc.id == t.id;
      var k :| FollowsId(w, a, k, tc.id.value);
      RepairKeepsFollows(w, a, k, tc.id.value, valid);
    }
  }

  /** What goes to the provider for a sound history: every message, strictly paired,
      with valid arguments. */
  lemma SoundRequestIsStrict(h: History, systemPrompt: string, includeReasoning: bool, visionOK: bool, valid: string -> bool)
    requires Paired(h) && NoEmptyId(Visible(h)) && valid("{}")
    ensures var w := Wire.Sanitized(Converted(h, systemPrompt, includeReasoning, visionOK), valid);
            StrictlyPaired(w) && Wire.ArgumentsValid(w, valid) && |w| == |Prompt(systemPrompt)| + |Visible(h)|
  {
    hide Paired, StrictlyPaired, Wire.ArgumentsValid, Wire.Sanitized, ToWire, NoEmptyId, Visible;
    var v := Visible(h);
    assert [] + h == h && [] + v == v;
    SkipKeepsPaired([], h);
    var w := Converted(h, systemPrompt, includeReasoning, visionOK);
    SanitizeOnlyRepairs(h, systemPrompt, includeReasoning, visionOK, valid);
    PairedOnWire(v, Prompt(systemPrompt), includeReasoning, visionOK);
    RepairKeepsStrict(w, valid);
    Wire.SanitizedIsClosed(w, valid);
  }
}

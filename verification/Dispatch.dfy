/** Dispatch of one batch of tool calls (internal/engine/loop/dispatch.go). */
module Dispatch {
  import opened Common
  import opened Conversation
  import Awaits

  // ----- Client-routed tools -----

  /** What the client sends back for one call, if anything. */
  datatype Payload = Missing | Payload(status: string, output: string, errorMessage: string)

  function FromPayload(p: Payload): CallResult {
    if p.Missing? then CallResult("missing client tool result", true, [])
    else if p.status == "success" then CallResult(p.output, false, [])
    else if p.status == "error" then CallResult(p.output + "\n" + p.errorMessage, true, [])
    else if p.status == "denied" then CallResult("Permission denied: " + p.errorMessage, true, [])
    else if p.status == "timeout" then CallResult("Execution timed out: " + p.errorMessage, true, [])
    else if p.status == "cancelled" then CallResult("Execution cancelled: " + p.errorMessage, true, [])
    else CallResult(p.output, true, [])
  }

  /** A client's result is an error exactly when it is missing or its status is not "success";
      output and error message come through where the status calls for them. */
  lemma PayloadReads(p: Payload)
    ensures var r := FromPayload(p);
            && (r.isError <==> p.Missing? || p.status != "success") && r.newMessages == []
            && (p.Payload? && p.status !in ["error", "denied", "timeout", "cancelled"] ==> r.content == p.output)
            && (p.Payload? && p.status == "error" ==> r.content == p.output + "\n" + p.errorMessage)
            && (p.Payload? && p.status in ["denied", "timeout", "cancelled"] ==> EndsWith(r.content, ": " + p.errorMessage))
  {
    if p.Payload? {
      if p.status == "denied" {
        assert FromPayload(p).content == "Permission denied" + (": " + p.errorMessage);
      } else if p.status == "timeout" {
        assert FromPayload(p).content == "Execution timed out" + (": " + p.errorMessage);
      } else if p.status == "cancelled" {
        assert FromPayload(p).content == "Execution cancelled" + (": " + p.errorMessage);
      }
    }
  }

  predicate EndsWith(s: string, end: string) {
    |end| <= |s| && s[|s| - |end|..] == end
  }

  const CANCELLED := CallResult("execution cancelled", true, [])

  /** What others do to the registry while a select is waiting, and whether the
      select then picks the cancelled context. */
  datatype Tick = Tick(others: seq<Awaits.Action<Payload>>, cancelled: bool)

  function ToolKey(c: Call): Awaits.Key {
    Awaits.Key(Awaits.Tool, c.id)
  }

  /** Somebody else registers this key while the batch is under way. */
  predicate PushedMeanwhile(ticks: seq<Tick>, key: Awaits.Key) {
    exists t :: t in ticks && Awaits.Push(key) in t.others
  }

  /** The keys of the batch that nobody else registers. */
  function Keys(calls: seq<Call>, ticks: seq<Tick>): set<Awaits.Key> {
    set c | c in calls && !PushedMeanwhile(ticks, ToolKey(c)) :: ToolKey(c)
  }

  /** Others do not read from channels that were handed to this batch; what they read from
      channels of their own does not matter here. */
  predicate Private(t: Tick) {
    forall a :: a in t.others ==> !a.Receive?
  }

  predicate Stranger(a: Awaits.Action<Payload>, mine: set<Awaits.Key>) {
    (a.Push? ==> a.key !in mine) && !a.Receive?
  }

  predicate Strangers(t: Tick, mine: set<Awaits.Key>) {
    forall a :: a in t.others ==> Stranger(a, mine)
  }

  lemma AllStrangers(calls: seq<Call>, ticks: seq<Tick>)
    requires forall t :: t in ticks ==> Private(t)
    ensures forall t :: t in ticks ==> Strangers(t, Keys(calls, ticks))
  {
    forall t, a | t in ticks && a in t.others ensures Stranger(a, Keys(calls, ticks)) {
      assert a.Push? ==> a == Awaits.Push(a.key);
    }
  }

  /** Nothing that others do can put one of our channels back, or reopen it; what they
      register is new, and none of our own keys. */
  ghost predicate Onward(s: Awaits.State<Payload>, t: Awaits.State<Payload>, mine: set<Awaits.Key>) {
    && |s.chans| <= |t.chans|
    && (forall k :: k in t.pending ==>
          (k in s.pending && t.pending[k] == s.pending[k]) || (k !in mine && t.pending[k] >= |s.chans|))
    && (forall c :: 0 <= c < |s.chans| ==> t.chans[c].key == s.chans[c].key && s.chans[c].log <= t.chans[c].log)
  }

  /** Nobody has read from a channel other than c0. */
  ghost predicate ReadOnly(s: Awaits.State<Payload>, t: Awaits.State<Payload>, c0: int) {
    |s.chans| <= |t.chans| && forall c :: 0 <= c < |s.chans| && c != c0 ==> t.chans[c].received == s.chans[c].received
  }

  lemma OnwardSelf(s: Awaits.State<Payload>, mine: set<Awaits.Key>)
    ensures Onward(s, s, mine)
  {
  }

  lemma OnwardTwice(s: Awaits.State<Payload>, t: Awaits.State<Payload>, u: Awaits.State<Payload>, mine: set<Awaits.Key>)
    requires Onward(s, t, mine) && Onward(t, u, mine)
    ensures Onward(s, u, mine)
  {
  }

  lemma StrangerStep(s: Awaits.State<Payload>, a: Awaits.Action<Payload>, mine: set<Awaits.Key>)
    requires Awaits.Enabled(s, a) && Stranger(a, mine)
    ensures Onward(s, Awaits.Next(s, a), mine) && ReadOnly(s, Awaits.Next(s, a), -1)
  {
  }

  lemma ReadTwice(s: Awaits.State<Payload>, t: Awaits.State<Payload>, u: Awaits.State<Payload>, c0: int)
    requires (ReadOnly(s, t, c0) || ReadOnly(s, t, -1)) && (ReadOnly(t, u, c0) || ReadOnly(t, u, -1))
    ensures ReadOnly(s, u, c0)
  {
  }

  /** The registry as others leave it; actions that are not possible are skipped. */
  function Others(s: Awaits.State<Payload>, actions: seq<Awaits.Action<Payload>>): Awaits.State<Payload> {
    if actions == [] then s
    else
      var t := Others(s, actions[..|actions| - 1]);
      var a := actions[|actions| - 1];
      if Awaits.Enabled(t, a) then Awaits.Next(t, a) else t
  }

  lemma {:induction false} OthersKeep(s: Awaits.State<Payload>, actions: seq<Awaits.Action<Payload>>, mine: set<Awaits.Key>)
    requires Awaits.Owned(s) && forall a :: a in actions ==> Stranger(a, mine)
    ensures Awaits.Owned(Others(s, actions)) && Onward(s, Others(s, actions), mine) && ReadOnly(s, Others(s, actions), -1)
  {
    if actions == [] {
      OnwardSelf(s, mine);
    } else {
      var front, a := actions[..|actions| - 1], actions[|actions| - 1];
      OthersKeep(s, front, mine);
      hide Awaits.Owned, Awaits.Next, Stranger, Onward, ReadOnly;
      if Awaits.Enabled(Others(s, front), a) {
        Awaits.OwnedStep(Others(s, front), a);
        StrangerStep(Others(s, front), a, mine);
        OnwardTwice(s, Others(s, front), Awaits.Next(Others(s, front), a), mine);
        ReadTwice(s, Others(s, front), Awaits.Next(Others(s, front), a), -1);
      }
    }
  }

  /** The result came from a payload sent on the call's own channel. */
  ghost predicate DeliveredOn(c: Awaits.Chan<Payload>, key: Awaits.Key, result: CallResult) {
    c.key == key && c.log != [] && c.log[0].Sent? && result == FromPayload(c.log[0].payload)
  }

  ghost predicate ClosedOn(c: Awaits.Chan<Payload>, key: Awaits.Key) {
    c.key == key && c.log != [] && c.log[0].Closed?
  }

  /** How a client-routed call that waits on channel c can end: with the payload sent on c,
      or cancelled, when the context was at some tick or c was closed empty. */
  ghost predicate Ended(s: Awaits.State<Payload>, c: nat, key: Awaits.Key, ticks: seq<Tick>, result: CallResult) {
    c < |s.chans| &&
    (DeliveredOn(s.chans[c], key, result) ||
     (result == CANCELLED && (ClosedOn(s.chans[c], key) || exists t :: t in ticks && t.cancelled)))
  }

  /** No entry of the registry has channel c. */
  ghost predicate Unregistered(s: Awaits.State<Payload>, c: nat) {
    forall k :: k in s.pending ==> s.pending[k] != c
  }

  /** A batch under way: `awaits` are the channels of the first n calls; those of the settled
      calls are not registered, and whatever of our own keys is still registered belongs to
      a call that is not settled. */
  ghost predicate Tracked(s: Awaits.State<Payload>, calls: seq<Call>, awaits: seq<nat>, settled: set<nat>,
                          mine: set<Awaits.Key>)
  {
    && |awaits| <= |calls|
    && (forall i :: 0 <= i < |awaits| ==> awaits[i] < |s.chans| && s.chans[awaits[i]].key == ToolKey(calls[i]))
    && (forall i, j :: 0 <= i < j < |awaits| ==> awaits[i] < awaits[j])
    && (forall i :: 0 <= i < |awaits| && i in settled ==> Unregistered(s, awaits[i]))
    && (forall i :: 0 <= i < |awaits| && ToolKey(calls[i]) in s.pending && ToolKey(calls[i]) in mine ==>
          Held(s, calls, awaits, settled, ToolKey(calls[i])))
  }

  ghost predicate Held(s: Awaits.State<Payload>, calls: seq<Call>, awaits: seq<nat>, settled: set<nat>, key: Awaits.Key)
    requires |awaits| <= |calls|
  {
    exists j :: Holds(s, calls, awaits, settled, key, j)
  }

  ghost predicate Holds(s: Awaits.State<Payload>, calls: seq<Call>, awaits: seq<nat>, settled: set<nat>, key: Awaits.Key, j: int)
    requires |awaits| <= |calls|
  {
    0 <= j < |awaits| && j !in settled && ToolKey(calls[j]) == key && key in s.pending && s.pending[key] == awaits[j]
  }

  lemma TrackedOnward(s: Awaits.State<Payload>, t: Awaits.State<Payload>, calls: seq<Call>, awaits: seq<nat>, settled: set<nat>,
                      mine: set<Awaits.Key>)
    requires Tracked(s, calls, awaits, settled, mine) && Onward(s, t, mine)
    ensures Tracked(t, calls, awaits, settled, mine)
  {
    forall i | 0 <= i < |awaits| && ToolKey(calls[i]) in t.pending && ToolKey(calls[i]) in mine
      ensures Held(t, calls, awaits, settled, ToolKey(calls[i]))
    {
      var key := ToolKey(calls[i]);
      var j :| Holds(s, calls, awaits, settled, key, j);
      assert Holds(t, calls, awaits, settled, key, j);
    }
  }

  /** A call whose channel is no longer registered is settled. */
  lemma TrackedSettle(s: Awaits.State<Payload>, calls: seq<Call>, awaits: seq<nat>, settled: set<nat>,
                      i: nat, mine: set<Awaits.Key>)
    requires Tracked(s, calls, awaits, settled, mine) && i < |awaits| && Unregistered(s, awaits[i])
    ensures Tracked(s, calls, awaits, settled + {i}, mine)
  {
    forall k | 0 <= k < |awaits| && ToolKey(calls[k]) in s.pending && ToolKey(calls[k]) in mine
      ensures Held(s, calls, awaits, settled + {i}, ToolKey(calls[k]))
    {
      var j :| Holds(s, calls, awaits, settled, ToolKey(calls[k]), j);
      assert Holds(s, calls, awaits, settled + {i}, ToolKey(calls[k]), j);
    }
  }

  lemma TrackedPush(s: Awaits.State<Payload>, calls: seq<Call>, awaits: seq<nat>, settled: set<nat>,
                    mine: set<Awaits.Key>)
    requires Tracked(s, calls, awaits, settled, mine) && |awaits| < |calls| && forall j :: j in settled ==> j < |awaits|
    ensures var t := Awaits.Next(s, Awaits.Push(ToolKey(calls[|awaits|])));
            Tracked(t, calls, awaits + [|s.chans|], settled, mine)
  {
    var n := |awaits|;
    var t := Awaits.Next(s, Awaits.Push(ToolKey(calls[n])));
    var more := awaits + [|s.chans|];
    forall i | 0 <= i < |more| && ToolKey(calls[i]) in t.pending && ToolKey(calls[i]) in mine
      ensures Held(t, calls, more, settled, ToolKey(calls[i]))
    {
      var key := ToolKey(calls[i]);
      if key == ToolKey(calls[n]) {
        assert Holds(t, calls, more, settled, key, n);
      } else {
        var j :| Holds(s, calls, awaits, settled, key, j);
        assert Holds(t, calls, more, settled, key, j);
      }
    }
  }

  /** Nobody has read from the channels of the calls from n on. */
  ghost predicate Unread(s: Awaits.State<Payload>, awaits: seq<nat>, n: int) {
    forall j :: 0 <= n <= j < |awaits| ==> awaits[j] < |s.chans| && s.chans[awaits[j]].received == 0
  }

  lemma UnreadStays(s: Awaits.State<Payload>, t: Awaits.State<Payload>, awaits: seq<nat>, n: nat, c0: int)
    requires Unread(s, awaits, n) && ReadOnly(s, t, c0) && forall j :: n <= j < |awaits| ==> awaits[j] != c0
    ensures Unread(t, awaits, n)
  {
  }

  lemma ForgetIsOnward(s: Awaits.State<Payload>, key: Awaits.Key, mine: set<Awaits.Key>)
    ensures Onward(s, Awaits.Next(s, Awaits.Forget(key)), mine) && ReadOnly(s, Awaits.Next(s, Awaits.Forget(key)), -1)
  {
  }

  lemma ReceiveIsOnward(s: Awaits.State<Payload>, c: nat, mine: set<Awaits.Key>)
    requires Awaits.Enabled(s, Awaits.Receive(c))
    ensures Onward(s, Awaits.Next(s, Awaits.Receive(c)), mine) && ReadOnly(s, Awaits.Next(s, Awaits.Receive(c)), c)
  {
  }

  /** A channel that has been used is no longer registered. */
  lemma UsedIsGone(s: Awaits.State<Payload>, c: nat)
    requires Awaits.Owned(s) && c < |s.chans| && s.chans[c].log != []
    ensures Unregistered(s, c)
  {
  }

  /** A channel can only be registered under its own key. */
  lemma ForgottenIsGone(s: Awaits.State<Payload>, c: nat, key: Awaits.Key)
    requires Awaits.Owned(s) && c < |s.chans| && s.chans[c].key == key && key !in s.pending
    ensures Unregistered(s, c)
  {
  }

  lemma FirstEvent(ch: Awaits.Chan<Payload>)
    requires Awaits.ChanOk(ch) && ch.log != [] && ch.received == 0
    ensures Awaits.Sends(ch.log) > 0 <==> ch.log[0].Sent?
  {
  }

  lemma PollEnds(s: Awaits.State<Payload>, c: nat, key: Awaits.Key, ticks: seq<Tick>, n: nat, result: CallResult)
    requires c < |s.chans| && s.chans[c].key == key && n < |ticks|
    requires if ticks[n].cancelled || (s.chans[c].log != [] && s.chans[c].log[0].Closed?) then result == CANCELLED
             else DeliveredOn(s.chans[c], key, result)
    ensures Ended(s, c, key, ticks, result)
  {
    assert ticks[n] in ticks;
  }

  /** A batch of client-routed calls against the registry of the awaiting session. */
  class ClientBridge {
    var registry: Awaits.State<Payload>

    constructor (registry: Awaits.State<Payload>)
      ensures this.registry == registry
    {
      this.registry := registry;
    }

    /** Others act while a select waits. */
    method Elapse(t: Tick, ghost mine: set<Awaits.Key>)
      requires Awaits.Owned(registry) && Strangers(t, mine)
      modifies this
      ensures Awaits.Owned(registry) && Onward(old(registry), registry, mine) && ReadOnly(old(registry), registry, -1)
    {
      OthersKeep(registry, t.others, mine);
      registry := Others(registry, t.others);
    }

    method ForgetTool(key: Awaits.Key, ghost mine: set<Awaits.Key>)
      requires Awaits.Owned(registry)
      modifies this
      ensures Awaits.Owned(registry) && Onward(old(registry), registry, mine) && key !in registry.pending
      ensures ReadOnly(old(registry), registry, -1)
    {
      Awaits.OwnedStep(registry, Awaits.Forget(key));
      ForgetIsOnward(registry, key, mine);
      registry := Awaits.Next(registry, Awaits.Forget(key));
    }

    /** The select on a call's own channel: None while nothing has happened yet, the
        payload when one was sent, and cancelled when the context is or the channel was
        closed empty. */
    method Poll(c: nat, key: Awaits.Key, cancelled: bool, ghost mine: set<Awaits.Key>) returns (result: Option<CallResult>)
      requires Awaits.Owned(registry) && c < |registry.chans| && registry.chans[c].key == key && registry.chans[c].received == 0
      modifies this
      ensures Awaits.Owned(registry) && Onward(old(registry), registry, mine) && ReadOnly(old(registry), registry, c)
      ensures result.Some? ==> Unregistered(registry, c)
      ensures result.Some? ==> c < |registry.chans| && var ch := registry.chans[c];
                if cancelled || (ch.log != [] && ch.log[0].Closed?) then result.value == CANCELLED
                else DeliveredOn(ch, key, result.value)
      ensures result.None? <==> !cancelled && old(registry).chans[c].log == []
      ensures result.None? ==> registry == old(registry)
    {
      OnwardSelf(registry, mine);
      if cancelled {
        ForgetTool(key, mine);
        ForgottenIsGone(registry, c, key);
        return Some(CANCELLED);
      }
      var ch := registry.chans[c];
      if ch.log == [] {
        return None;
      }
      UsedIsGone(registry, c);
      FirstEvent(ch);
      if Awaits.Sends(ch.log) > ch.received {
        Awaits.OwnedStep(registry, Awaits.Receive(c));
        ReceiveIsOnward(registry, c, mine);
        registry := Awaits.Next(registry, Awaits.Receive(c));
        return Some(FromPayload(ch.log[0].payload));
      }
      return Some(CANCELLED);
    }

    /** Waiting for one call: None when the ticks run out while it is still pending. */
    method Await(c: nat, key: Awaits.Key, ticks: seq<Tick>, from: nat, ghost mine: set<Awaits.Key>)
      returns (result: Option<CallResult>, next: nat)
      requires Awaits.Owned(registry) && c < |registry.chans| && registry.chans[c].key == key && registry.chans[c].received == 0
      requires from <= |ticks| && forall t :: t in ticks ==> Strangers(t, mine)
      modifies this
      ensures from <= next <= |ticks|
      ensures Awaits.Owned(registry) && Onward(old(registry), registry, mine) && ReadOnly(old(registry), registry, c)
      ensures result.Some? ==> Unregistered(registry, c)
      ensures result.Some? ==> Ended(registry, c, key, ticks, result.value)
    {
      next, result := from, None;
      OnwardSelf(registry, mine);
      while next < |ticks|
        invariant from <= next <= |ticks| && result.None?
        invariant Awaits.Owned(registry) && Onward(old(registry), registry, mine) && ReadOnly(old(registry), registry, c)
        invariant c < |registry.chans| && registry.chans[c].key == key && registry.chans[c].received == 0
      {
        hide Awaits.Owned;
        ghost var s0 := registry;
        Elapse(ticks[next], mine);
        ghost var s1 := registry;
        OnwardTwice(old(registry), s0, s1, mine);
        ReadTwice(old(registry), s0, s1, c);
        result := Poll(c, key, ticks[next].cancelled, mine);
        OnwardTwice(old(registry), s1, registry, mine);
        ReadTwice(old(registry), s1, registry, c);
        if result.Some? {
          PollEnds(registry, c, key, ticks, next, result.value);
          next := next + 1;
          return;
        }
        next := next + 1;
      }
    }

    /** First pass: register each call and hand it to the client. */
    method Register(calls: seq<Call>, ticks: seq<Tick>, ghost mine: set<Awaits.Key>)
      returns (awaits: seq<nat>, results: seq<CallResult>, next: nat, ok: bool)
      requires Awaits.Owned(registry) && forall t :: t in ticks ==> Strangers(t, mine)
      modifies this
      ensures Awaits.Owned(registry) && next <= |ticks| && |results| == |calls|
      ensures ok ==> |awaits| == |calls| && Unread(registry, awaits, 0) && FreshFrom(awaits, |old(registry).chans|)
      ensures ok ==> Tracked(registry, calls, awaits, Settled(results, |calls|), mine)
      ensures OnlyCancelled(results, ticks)
    {
      awaits, next, ok := [], 0, true;
      results := seq(|calls|, _ => ZERO);
      assert Settled(results, 0) == {};
      while |awaits| < |calls|
        invariant |awaits| <= |calls| == |results| && next <= |ticks|
        invariant Awaits.Owned(registry) && Tracked(registry, calls, awaits, Settled(results, |awaits|), mine)
        invariant Unread(registry, awaits, 0) && FreshFrom(awaits, |old(registry).chans|)
        invariant |old(registry).chans| <= |registry.chans|
        invariant OnlyCancelled(results, ticks)
        invariant forall i :: |awaits| <= i < |results| ==> results[i] == ZERO
      {
        if next == |ticks| {
          return awaits, results, next, false;
        }
        hide Awaits.Owned, Tracked, Unread, Settled;
        awaits, results := RegisterOne(calls, ticks[next], awaits, results, mine);
        assert ticks[next] in ticks;
        next := next + 1;
      }
    }

    method RegisterOne(calls: seq<Call>, tick: Tick, before: seq<nat>, done: seq<CallResult>, ghost mine: set<Awaits.Key>)
      returns (awaits: seq<nat>, results: seq<CallResult>)
      requires Awaits.Owned(registry) && Strangers(tick, mine) && |before| < |calls| == |done|
      requires Tracked(registry, calls, before, Settled(done, |before|), mine)
      requires done[|before|] == ZERO && Unread(registry, before, 0)
      modifies this
      ensures Awaits.Owned(registry) && |old(registry).chans| <= |registry.chans|
      ensures awaits == before + [|old(registry).chans|]
      ensures results == done[|before| := if tick.cancelled then CANCELLED else ZERO]
      ensures Tracked(registry, calls, awaits, Settled(results, |awaits|), mine) && Unread(registry, awaits, 0)
    {
      hide Awaits.Owned, Tracked;
      var i := |before|;
      var key := ToolKey(calls[i]);
      Awaits.OwnedStep(registry, Awaits.Push(key));
      TrackedPush(registry, calls, before, Settled(done, i), mine);
      awaits, results := before + [|registry.chans|], done;
      registry := Awaits.Next(registry, Awaits.Push(key));
      ghost var s0 := registry;
      assert Unread(s0, awaits, 0);
      Elapse(tick, mine);
      TrackedOnward(s0, registry, calls, awaits, Settled(done, i), mine);
      UnreadStays(s0, registry, awaits, 0, -1);
      if tick.cancelled {
        results := results[i := CANCELLED];
        ghost var s1 := registry;
        ForgetTool(key, mine);
        UnreadStays(s1, registry, awaits, 0, -1);
        TrackedOnward(s1, registry, calls, awaits, Settled(done, i), mine);
        OwnChannel(registry, calls, awaits, Settled(done, i), mine, i);
        ForgottenIsGone(registry, awaits[i], key);
        TrackedSettle(registry, calls, awaits, Settled(done, i), i, mine);
        assert Settled(results, i + 1) == Settled(done, i) + {i};
      } else {
        assert Settled(results, i + 1) == Settled(done, i);
      }
    }

    /** executeClientTools: None while the ticks leave some call waiting. Each call waits on
        a new channel of its own. When it returns, none of these channels is registered any
        more, and an id of the batch is registered only if somebody else did so meanwhile. */
    method Execute(calls: seq<Call>, hasRegistry: bool, hasClient: bool, ticks: seq<Tick>)
      returns (r: Option<seq<CallResult>>, ghost own: seq<nat>)
      requires Awaits.Owned(registry) && forall t :: t in ticks ==> Private(t)
      modifies this
      ensures r.Some? ==> |r.value| == |calls|
      ensures !hasRegistry || !hasClient ==> r.Some? && registry == old(registry) && forall x :: x in r.value ==> x.isError
      ensures hasRegistry && hasClient && r.Some? ==>
                && |own| == |calls| && FreshFrom(own, |old(registry).chans|)
                && (forall i :: 0 <= i < |calls| ==> Unregistered(registry, own[i]))
                && (forall i :: 0 <= i < |calls| && ToolKey(calls[i]) in registry.pending ==>
                      PushedMeanwhile(ticks, ToolKey(calls[i])))
                && (forall i :: 0 <= i < |calls| ==> Ended(registry, own[i], ToolKey(calls[i]), ticks, r.value[i]))
      ensures Awaits.Owned(registry)
    {
      own := [];
      if !hasRegistry {
        r := Some(seq(|calls|, i requires 0 <= i < |calls| =>
                          CallResult("tool " + calls[i].name + " requires a session await registry", true, [])));
        return;
      }
      if !hasClient {
        r := Some(seq(|calls|, i requires 0 <= i < |calls| =>
                          CallResult("tool " + calls[i].name + " requires a connected client event channel", true, [])));
        return;
      }
      hide Awaits.Owned, Tracked, Unread, Settled, Strangers, Private, Unregistered, Ended, OnlyCancelled;
      AllStrangers(calls, ticks);
      ghost var mine := Keys(calls, ticks);
      var awaits, results, next, ok := Register(calls, ticks, mine);
      if !ok {
        return None, own;
      }
      own := awaits;
      r := Collect(calls, awaits, results, ticks, next, mine);
    }

    /** Second pass: wait for each call that was not cancelled while being registered. */
    method Collect(calls: seq<Call>, awaits: seq<nat>, registered: seq<CallResult>, ticks: seq<Tick>, from: nat,
                   ghost mine: set<Awaits.Key>)
      returns (r: Option<seq<CallResult>>)
      requires Awaits.Owned(registry) && (forall t :: t in ticks ==> Strangers(t, mine)) && from <= |ticks|
      requires |calls| == |awaits| == |registered| && Unread(registry, awaits, 0)
      requires Tracked(registry, calls, awaits, Settled(registered, |calls|), mine)
      requires OnlyCancelled(registered, ticks)
      modifies this
      ensures Awaits.Owned(registry)
      ensures r.Some? ==>
                && |r.value| == |calls|
                && (forall i :: 0 <= i < |calls| ==> Unregistered(registry, awaits[i]))
                && (forall i :: 0 <= i < |calls| && ToolKey(calls[i]) in registry.pending ==> ToolKey(calls[i]) !in mine)
                && (forall i :: 0 <= i < |calls| ==> Ended(registry, awaits[i], ToolKey(calls[i]), ticks, r.value[i]))
    {
      hide Awaits.Owned, Onward, DeliveredOn, ReadOnly, Unregistered;
      var results, next := registered, from;
      ghost var settled: set<nat> := Settled(results, |calls|);
      for i := 0 to |calls|
        invariant |calls| == |results| && 0 <= next <= |ticks|
        invariant Awaits.Owned(registry) && Tracked(registry, calls, awaits, settled, mine) && Unread(registry, awaits, i)
        invariant forall j :: 0 <= j < i ==> j in settled
        invariant forall j :: i <= j < |calls| && results[j] != ZERO ==> j in settled
        invariant forall j :: 0 <= j < i ==> Ended(registry, awaits[j], ToolKey(calls[j]), ticks, results[j])
        invariant forall j :: i <= j < |calls| ==> results[j] == registered[j]
      {
        OwnChannel(registry, calls, awaits, settled, mine, i);
        if results[i].content == "" && !results[i].isError {
          ghost var s0 := registry;
          var result;
          Slot(registry, calls, awaits, settled, mine, i);
          result, next := Await(awaits[i], ToolKey(calls[i]), ticks, next, mine);
          if result.None? {
            return None;
          }
          AllStay(s0, registry, calls, awaits, ticks, results, i, mine);
          TrackedOnward(s0, registry, calls, awaits, settled, mine);
          UnreadStays(s0, registry, awaits, i + 1, awaits[i]);
          TrackedSettle(registry, calls, awaits, settled, i, mine);
          results := results[i := result.value];
          settled := settled + {i};
        }
        hide Tracked, Ended, Unread;
      }
      NothingHeld(registry, calls, awaits, settled, mine);
      return Some(results);
    }
  }

  /** Channels made one after the other, from number n on. */
  ghost predicate FreshFrom(awaits: seq<nat>, n: nat) {
    && (forall i :: 0 <= i < |awaits| ==> n <= awaits[i])
    && (forall i, j :: 0 <= i < j < |awaits| ==> awaits[i] != awaits[j])
  }

  lemma OwnChannel(s: Awaits.State<Payload>, calls: seq<Call>, awaits: seq<nat>, settled: set<nat>,
                   mine: set<Awaits.Key>, i: nat)
    requires Tracked(s, calls, awaits, settled, mine) && i < |awaits|
    ensures awaits[i] < |s.chans| && s.chans[awaits[i]].key == ToolKey(calls[i])
  {
  }

  lemma Slot(s: Awaits.State<Payload>, calls: seq<Call>, awaits: seq<nat>, settled: set<nat>,
             mine: set<Awaits.Key>, i: nat)
    requires Tracked(s, calls, awaits, settled, mine) && i < |awaits|
    ensures awaits[i] < |s.chans| && s.chans[awaits[i]].key == ToolKey(calls[i])
    ensures forall j :: i < j < |awaits| ==> awaits[j] != awaits[i]
  {
  }

  /** After the first pass a call is either waiting or was cancelled at some tick. */
  ghost predicate OnlyCancelled(results: seq<CallResult>, ticks: seq<Tick>) {
    forall i :: 0 <= i < |results| ==> results[i] == ZERO || (results[i] == CANCELLED && exists t :: t in ticks && t.cancelled)
  }

  /** Nothing has been put in a call's slot yet. */
  const ZERO := CallResult("", false, [])

  /** The calls cancelled while being registered. */
  ghost function Settled(results: seq<CallResult>, n: nat): set<nat>
    requires n <= |results|
  {
    set i: nat | 0 <= i < n && results[i] != ZERO
  }

  lemma AllStay(s: Awaits.State<Payload>, t: Awaits.State<Payload>, calls: seq<Call>, awaits: seq<nat>, ticks: seq<Tick>,
                results: seq<CallResult>, n: nat, mine: set<Awaits.Key>)
    requires Onward(s, t, mine) && n <= |calls| == |results| == |awaits|
    requires forall j :: 0 <= j < n ==> Ended(s, awaits[j], ToolKey(calls[j]), ticks, results[j])
    ensures forall j :: 0 <= j < n ==> Ended(t, awaits[j], ToolKey(calls[j]), ticks, results[j])
  {
  }

  lemma NothingHeld(s: Awaits.State<Payload>, calls: seq<Call>, awaits: seq<nat>, settled: set<nat>,
                    mine: set<Awaits.Key>)
    requires Tracked(s, calls, awaits, settled, mine) && |awaits| == |calls| && forall j :: 0 <= j < |calls| ==> j in settled
    ensures forall i :: 0 <= i < |calls| ==> Unregistered(s, awaits[i])
    ensures forall i :: 0 <= i < |calls| && ToolKey(calls[i]) in s.pending ==> ToolKey(calls[i]) !in mine
  {
  }

  // ----- Segments -----

  /** A stretch of calls that go the same way. */
  datatype Segment = Segment(start: nat, end: nat)

  /** What dispatchTools does, in order: run a segment, report one result. */
  datatype Step = Ran(segment: Segment, toClient: bool) | Reported(index: nat, result: CallResult)

  /** The executors; which tools go to the client, and what each executor returns for the segment at a position. */
  datatype Executors = Executors(
    routed: string -> bool,
    server: (nat, seq<Call>) -> seq<CallResult>,
    client: (nat, seq<Call>) -> seq<CallResult>)

  /** One result per call, as both executors promise. */
  ghost predicate Aligned(x: Executors) {
    forall i, s :: |x.server(i, s)| == |s| && |x.client(i, s)| == |s|
  }

  /** The end of the run of equally routed calls that begins at start. */
  ghost predicate IsRunEnd(x: Executors, calls: seq<Call>, start: int, end: int) {
    && 0 <= start < end <= |calls|
    && (forall i :: start <= i < end ==> x.routed(calls[i].name) == x.routed(calls[start].name))
    && (end < |calls| ==> x.routed(calls[end].name) != x.routed(calls[start].name))
  }

  function Reports(results: seq<CallResult>, lo: nat, hi: nat): seq<Step>
    requires lo <= hi <= |results|
  {
    if lo == hi then [] else Reports(results, lo, hi - 1) + [Reported(hi - 1, results[hi - 1])]
  }

  /** The log of a dispatch that has dealt with the calls before n: maximal segments,
      each run on its own executor and followed by the reports of its results. */
  ghost predicate DispatchLog(x: Executors, calls: seq<Call>, results: seq<CallResult>, log: seq<Step>, n: nat)
    requires n <= |calls| == |results|
    decreases n
  {
    if n == 0 then log == []
    else exists start: nat, front: seq<Step> :: IsLastSegment(x, calls, results, log, n, start, front)
  }

  /** What the executor that these calls are routed to returns for them. */
  function OnItsExecutor(x: Executors, calls: seq<Call>, start: nat, end: nat): seq<CallResult>
    requires start < end <= |calls|
  {
    if x.routed(calls[start].name) then x.client(start, calls[start..end]) else x.server(start, calls[start..end])
  }

  ghost predicate IsLastSegment(x: Executors, calls: seq<Call>, results: seq<CallResult>, log: seq<Step>, n: nat,
                                start: nat, front: seq<Step>)
    requires 0 < n <= |calls| == |results|
    decreases n, 0
  {
    && IsRunEnd(x, calls, start, n)
    && log == front + [Ran(Segment(start, n), x.routed(calls[start].name))] + Reports(results, start, n)
    && results[start..n] == OnItsExecutor(x, calls, start, n)
    && DispatchLog(x, calls, results, front, start)
  }

  lemma {:induction false} ReportsFrame(a: seq<CallResult>, b: seq<CallResult>, lo: nat, hi: nat)
    requires lo <= hi <= |a| == |b| && forall i :: lo <= i < hi ==> a[i] == b[i]
    ensures Reports(a, lo, hi) == Reports(b, lo, hi)
    decreases hi
  {
    if lo < hi {
      ReportsFrame(a, b, lo, hi - 1);
    }
  }

  /** Later results do not disturb the log of earlier ones. */
  lemma {:induction false} LogFrame(x: Executors, calls: seq<Call>, a: seq<CallResult>, b: seq<CallResult>, log: seq<Step>, n: nat)
    requires n <= |calls| == |a| == |b| && (forall i :: 0 <= i < n ==> a[i] == b[i]) && DispatchLog(x, calls, a, log, n)
    ensures DispatchLog(x, calls, b, log, n)
    decreases n
  {
    if n > 0 {
      var start: nat, front: seq<Step> :| IsLastSegment(x, calls, a, log, n, start, front);
      LogFrame(x, calls, a, b, front, start);
      ReportsFrame(a, b, start, n);
      assert a[start..n] == b[start..n];
      assert IsLastSegment(x, calls, b, log, n, start, front);
    }
  }

  /** dispatchTools. */
  method DispatchTools(x: Executors, calls: seq<Call>) returns (results: seq<CallResult>, log: seq<Step>)
    requires Aligned(x)
    ensures |results| == |calls| && DispatchLog(x, calls, results, log, |calls|)
  {
    results := seq(|calls|, _ => ZERO);
    log := [];
    var start: nat := 0;
    while start < |calls|
      invariant start <= |calls| == |results|
      invariant DispatchLog(x, calls, results, log, start)
    {
      hide DispatchLog;
      results, log, start := RunSegment(x, calls, results, log, start);
    }
  }

  /** The longest run of calls that go the same way, executed and reported. */
  method RunSegment(x: Executors, calls: seq<Call>, before: seq<CallResult>, front: seq<Step>, start: nat)
    returns (results: seq<CallResult>, log: seq<Step>, end: nat)
    requires Aligned(x) && start < |calls| == |before| && DispatchLog(x, calls, before, front, start)
    ensures start < end <= |calls| == |results| && DispatchLog(x, calls, results, log, end)
  {
    var toClient := x.routed(calls[start].name);
    end := start + 1;
    while end < |calls| && x.routed(calls[end].name) == toClient
      invariant start < end <= |calls|
      invariant forall i :: start <= i < end ==> x.routed(calls[i].name) == toClient
    {
      end := end + 1;
    }
    assert IsRunEnd(x, calls, start, end);
    hide Reports, IsRunEnd;
    var segment := calls[start..end];
    var part := if toClient then x.client(start, segment) else x.server(start, segment);
    log := front + [Ran(Segment(start, end), toClient)];
    results, log := Report(before, log, start, part);
    SegmentDone(x, calls, before, results, front, log, start, end);
  }

  /** The log grows by a maximal segment whose results have been stored behind the others. */
  lemma SegmentDone(x: Executors, calls: seq<Call>, before: seq<CallResult>, results: seq<CallResult>, front: seq<Step>,
                    log: seq<Step>, start: nat, end: nat)
    requires start < end <= |calls| == |before| == |results|
    requires IsRunEnd(x, calls, start, end) && DispatchLog(x, calls, before, front, start)
    requires results[..start] == before[..start]
    requires results[start..end] == OnItsExecutor(x, calls, start, end)
    requires log == front + [Ran(Segment(start, end), x.routed(calls[start].name))] + Reports(results, start, end)
    ensures DispatchLog(x, calls, results, log, end)
  {
    hide IsRunEnd, Reports;
    assert forall i :: 0 <= i < start ==> before[i] == before[..start][i] && results[i] == results[..start][i];
    LogFrame(x, calls, before, results, front, start);
    assert IsLastSegment(x, calls, results, log, end, start, front) by {
      hide DispatchLog;
    }
    hide IsLastSegment;
  }

  /** Storing and reporting the results of one segment. */
  method Report(before: seq<CallResult>, done: seq<Step>, start: nat, part: seq<CallResult>)
    returns (results: seq<CallResult>, log: seq<Step>)
    requires start + |part| <= |before|
    ensures |results| == |before| && results[start..start + |part|] == part
    ensures results[..start] == before[..start]
    ensures log == done + Reports(results, start, start + |part|)
  {
    results, log := before, done;
    for i := 0 to |part|
      invariant |results| == |before| && forall k :: 0 <= k < i ==> results[start + k] == part[k]
      invariant forall k :: 0 <= k < start ==> results[k] == before[k]
      invariant log == done + Reports(results, start, start + i)
    {
      ghost var earlier := results;
      results := results[start + i := part[i]];
      ReportsFrame(earlier, results, start, start + i);
      log := log + [Reported(start + i, part[i])];
    }
  }

  /** The reports of a log, in order. */
  function ReportedIn(log: seq<Step>): seq<Step> {
    if log == [] then []
    else ReportedIn(log[..|log| - 1]) + if log[|log| - 1].Reported? then [log[|log| - 1]] else []
  }

  lemma {:induction false} ReportedAppend(a: seq<Step>, b: seq<Step>)
    ensures ReportedIn(a + b) == ReportedIn(a) + ReportedIn(b)
  {
    if b == [] {
      assert a + b == a;
    } else {
      assert (a + b)[..|a + b| - 1] == a + b[..|b| - 1];
      ReportedAppend(a, b[..|b| - 1]);
    }
  }

  lemma {:induction false} ReportsAreReported(results: seq<CallResult>, lo: nat, hi: nat)
    requires lo <= hi <= |results|
    ensures ReportedIn(Reports(results, lo, hi)) == Reports(results, lo, hi)
    decreases hi
  {
    if lo < hi {
      var r := Reports(results, lo, hi);
      assert r[..|r| - 1] == Reports(results, lo, hi - 1);
      ReportsAreReported(results, lo, hi - 1);
    }
  }

  lemma {:induction false} ReportsJoin(results: seq<CallResult>, i: nat, j: nat, k: nat)
    requires i <= j <= k <= |results|
    ensures Reports(results, i, j) + Reports(results, j, k) == Reports(results, i, k)
    decreases k
  {
    if j < k {
      ReportsJoin(results, i, j, k - 1);
    }
  }

  /** Each call is reported exactly once, in call order, with the result stored at its index. */
  lemma {:induction false} EachReportedOnce(x: Executors, calls: seq<Call>, results: seq<CallResult>, log: seq<Step>, n: nat)
    requires n <= |calls| == |results| && DispatchLog(x, calls, results, log, n)
    ensures ReportedIn(log) == Reports(results, 0, n)
    decreases n
  {
    if n > 0 {
      var start: nat, front: seq<Step> :| IsLastSegment(x, calls, results, log, n, start, front);
      EachReportedOnce(x, calls, results, front, start);
      SegmentReported(results, front, Ran(Segment(start, n), x.routed(calls[start].name)), start, n);
    }
  }

  lemma SegmentReported(results: seq<CallResult>, front: seq<Step>, ran: Step, start: nat, n: nat)
    requires start <= n <= |results| && ran.Ran? && ReportedIn(front) == Reports(results, 0, start)
    ensures ReportedIn(front + [ran] + Reports(results, start, n)) == Reports(results, 0, n)
  {
    assert (front + [ran])[..|front|] == front;
    hide Reports;
    assert ReportedIn(front + [ran]) == ReportedIn(front);
    ReportedAppend(front + [ran], Reports(results, start, n));
    ReportsAreReported(results, start, n);
    ReportsJoin(results, 0, start, n);
  }

  /** Step p runs a maximal segment on its own executor; everything reported before it is
      every call before it, and the reports of its own calls come next. */
  ghost predicate SegmentPlaced(x: Executors, calls: seq<Call>, results: seq<CallResult>, log: seq<Step>, p: nat)
    requires |calls| == |results|
  {
    && p < |log| && log[p].Ran?
    && var g := log[p].segment;
       && IsRunEnd(x, calls, g.start, g.end) && log[p].toClient == x.routed(calls[g.start].name)
       && ReportedIn(log[..p]) == Reports(results, 0, g.start)
       && p + 1 + (g.end - g.start) <= |log| && log[p + 1..p + 1 + (g.end - g.start)] == Reports(results, g.start, g.end)
  }

  lemma {:induction false} SegmentsInOrder(x: Executors, calls: seq<Call>, results: seq<CallResult>, log: seq<Step>, n: nat, p: nat)
    requires n <= |calls| == |results| && DispatchLog(x, calls, results, log, n) && p < |log| && log[p].Ran?
    ensures SegmentPlaced(x, calls, results, log, p)
    decreases n
  {
    var start: nat, front: seq<Step> :| IsLastSegment(x, calls, results, log, n, start, front);
    LastSegmentFirst(x, calls, results, log, n, start, front);
    hide SegmentPlaced;
    if p < |front| {
      SegmentsInOrder(x, calls, results, front, start, p);
      PlacedStays(x, calls, results, front, log, p);
    } else {
      LastPlaced(x, calls, results, log, n, start, front);
    }
  }

  lemma PlacedStays(x: Executors, calls: seq<Call>, results: seq<CallResult>, front: seq<Step>, log: seq<Step>, p: nat)
    requires |calls| == |results| && SegmentPlaced(x, calls, results, front, p) && front <= log
    ensures SegmentPlaced(x, calls, results, log, p)
  {
    var g := front[p].segment;
    assert log[..p] == front[..p];
    assert log[p + 1..p + 1 + (g.end - g.start)] == front[p + 1..p + 1 + (g.end - g.start)];
  }

  lemma LastPlaced(x: Executors, calls: seq<Call>, results: seq<CallResult>, log: seq<Step>, n: nat, start: nat, front: seq<Step>)
    requires 0 < n <= |calls| == |results| && IsLastSegment(x, calls, results, log, n, start, front)
    ensures SegmentPlaced(x, calls, results, log, |front|)
  {
    LastSegmentFirst(x, calls, results, log, n, start, front);
    assert log[|front| + 1..] == log[|front| + 1..|front| + 1 + (n - start)];
  }

  /** The last segment starts right after the log before it, and its reports end the log. */
  lemma LastSegmentFirst(x: Executors, calls: seq<Call>, results: seq<CallResult>, log: seq<Step>, n: nat, start: nat,
                         front: seq<Step>)
    requires 0 < n <= |calls| == |results| && IsLastSegment(x, calls, results, log, n, start, front)
    ensures front <= log && start < n && |log| == |front| + 1 + (n - start)
    ensures log[|front|] == Ran(Segment(start, n), x.routed(calls[start].name))
    ensures forall q :: |front| < q < |log| ==> !log[q].Ran?
    ensures log[..|front|] == front && log[|front| + 1..] == Reports(results, start, n)
    ensures ReportedIn(log[..|front|]) == Reports(results, 0, start)
  {
    ReportsLength(results, start, n);
    EachReportedOnce(x, calls, results, front, start);
    var ran := Ran(Segment(start, n), x.routed(calls[start].name));
    assert log == front + ([ran] + Reports(results, start, n));
    hide Reports, ReportedIn, DispatchLog;
  }

  lemma {:induction false} ReportsLength(results: seq<CallResult>, lo: nat, hi: nat)
    requires lo <= hi <= |results|
    ensures |Reports(results, lo, hi)| == hi - lo
    ensures forall i :: 0 <= i < hi - lo ==> Reports(results, lo, hi)[i] == Reported(lo + i, results[lo + i])
    decreases hi
  {
    if lo < hi {
      ReportsLength(results, lo, hi - 1);
      var front := Reports(results, lo, hi - 1);
      assert Reports(results, lo, hi) == front + [Reported(hi - 1, results[hi - 1])];
      hide Reports;
    }
  }
}

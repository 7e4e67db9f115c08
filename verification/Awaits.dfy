/** Pending awaits of a session: the registry, the channels it hands out, and their
    ownership under every interleaving (internal/engine/session/awaits.go). */
module Awaits {
  import opened Common

  /** The four id spaces. */
  datatype Kind = Tool | Permission | PlanApproval | StepDecision

  datatype Key = Key(kind: Kind, id: string)

  datatype Event<P> = Sent(payload: P) | Closed

  /** A channel of capacity one: everything done to it, and how many payloads were taken out. */
  datatype Chan<P> = Chan(key: Key, log: seq<Event<P>>, received: nat)

  function Sends<P>(log: seq<Event<P>>): nat {
    if log == [] then 0 else Sends(log[..|log| - 1]) + if log[|log| - 1].Sent? then 1 else 0
  }

  function Closes<P>(log: seq<Event<P>>): nat {
    if log == [] then 0 else Closes(log[..|log| - 1]) + if log[|log| - 1].Closed? then 1 else 0
  }

  /** A send would not wait: the one slot is free. */
  predicate HasRoom<P>(c: Chan<P>) {
    Sends(c.log) <= c.received
  }

  /** Where a Resolve call stands after its locked section. */
  datatype Stage = ToSend | ToClose | Finished

  datatype Resolver<P> = Resolver(chan: nat, payload: P, stage: Stage)

  datatype State<P> = State(pending: map<Key, nat>, chans: seq<Chan<P>>, resolvers: seq<Resolver<P>>)

  datatype Action<P> =
    | Push(key: Key)
    | Detach(key: Key, payload: P)   // the locked section of Resolve
    | Send(r: nat)
    | Close(r: nat)
    | Forget(key: Key)
    | AbortAll
    | Receive(chan: nat)

  function Init<P>(): State<P> {
    State(map[], [], [])
  }

  predicate At<P>(s: State<P>, r: nat, stage: Stage) {
    r < |s.resolvers| && s.resolvers[r].stage == stage && s.resolvers[r].chan < |s.chans|
  }

  /** What the code can do next; a send is possible whether or not it would block or panic. */
  predicate Enabled<P>(s: State<P>, a: Action<P>) {
    match a
    case Send(r) => At(s, r, ToSend)
    case Close(r) => At(s, r, ToClose)
    case Receive(c) => c < |s.chans| && Sends(s.chans[c].log) > s.chans[c].received
    case _ => true
  }

  function Record<P>(c: Chan<P>, e: Event<P>): Chan<P> {
    c.(log := c.log + [e])
  }

  function CloseIn<P>(chans: seq<Chan<P>>, which: set<nat>): (r: seq<Chan<P>>)
    ensures |r| == |chans|
    ensures forall i :: 0 <= i < |r| ==> r[i] == if i in which then Record(chans[i], Closed) else chans[i]
  {
    seq(|chans|, i requires 0 <= i < |chans| => if i in which then Record(chans[i], Closed) else chans[i])
  }

  function Next<P>(s: State<P>, a: Action<P>): State<P>
    requires Enabled(s, a)
  {
    match a
    case Push(key) => s.(pending := s.pending[key := |s.chans|], chans := s.chans + [Chan(key, [], 0)])
    case Detach(key, payload) =>
      if key !in s.pending then s
      else s.(pending := s.pending - {key}, resolvers := s.resolvers + [Resolver(s.pending[key], payload, ToSend)])
    case Send(r) =>
      var x := s.resolvers[r];
      s.(chans := s.chans[x.chan := Record(s.chans[x.chan], Sent(x.payload))], resolvers := s.resolvers[r := x.(stage := ToClose)])
    case Close(r) =>
      var x := s.resolvers[r];
      s.(chans := s.chans[x.chan := Record(s.chans[x.chan], Closed)], resolvers := s.resolvers[r := x.(stage := Finished)])
    case Forget(key) => s.(pending := s.pending - {key})
    case AbortAll => s.(pending := map[], chans := CloseIn(s.chans, s.pending.Values))
    case Receive(c) => s.(chans := s.chans[c := s.chans[c].(received := s.chans[c].received + 1)])
  }

  // ----- Ownership -----

  ghost predicate PendingOk<P>(s: State<P>) {
    forall k :: k in s.pending ==> s.pending[k] < |s.chans| && s.chans[s.pending[k]] == Chan(k, [], 0)
  }

  ghost predicate ResolverOk<P>(s: State<P>, x: Resolver<P>) {
    && x.chan < |s.chans|
    && (x.stage == ToSend ==> s.chans[x.chan].log == [] && s.chans[x.chan].received == 0)
    && (x.stage == ToClose ==> s.chans[x.chan].log == [Sent(x.payload)])
  }

  ghost predicate ResolversOk<P>(s: State<P>) {
    && (forall r :: 0 <= r < |s.resolvers| ==> ResolverOk(s, s.resolvers[r]))
    && (forall q, r :: 0 <= q < r < |s.resolvers| ==> s.resolvers[q].chan != s.resolvers[r].chan)
    && (forall r, k :: 0 <= r < |s.resolvers| && k in s.pending ==> s.resolvers[r].chan != s.pending[k])
  }

  /** At most one send, at most one close, and the close comes last. */
  ghost predicate ChanOk<P>(c: Chan<P>) {
    && |c.log| <= 2 && (|c.log| == 2 ==> c.log[0].Sent? && c.log[1].Closed?)
    && c.received <= Sends(c.log)
  }

  /** Each channel has at most one owner: a registry entry or a Resolve call under way. */
  ghost predicate Owned<P>(s: State<P>) {
    PendingOk(s) && ResolversOk(s) && forall c :: 0 <= c < |s.chans| ==> ChanOk(s.chans[c])
  }

  lemma OwnedStep<P>(s: State<P>, a: Action<P>)
    requires Owned(s) && Enabled(s, a)
    ensures Owned(Next(s, a))
  {
    match a
    case Push(key) =>
    case Detach(key, payload) => DetachKeepsOwned(s, key, payload);
    case Send(r) => SendKeepsOwned(s, r);
    case Close(r) => CloseKeepsOwned(s, r);
    case Forget(key) =>
    case AbortAll => AbortKeepsOwned(s);
    case Receive(c) => ReceiveKeepsOwned(s, c);
  }

  lemma DetachKeepsOwned<P>(s: State<P>, key: Key, payload: P)
    requires Owned(s)
    ensures Owned(Next(s, Detach(key, payload)))
  {
  }

  lemma SmallLogs<P>(p: P)
    ensures Sends([Sent(p)]) == 1 && Sends([Sent(p), Closed]) == 1 && Closes([Sent(p), Closed]) == 1
  {
    var one: seq<Event<P>> := [Sent(p)];
    assert one[..0] == [] && Closes(one) == 0;
    assert (one + [Closed])[..1] == one && one + [Closed] == [Sent(p), Closed];
  }

  lemma SendKeepsOwned<P>(s: State<P>, r: nat)
    requires Owned(s) && Enabled(s, Send(r))
    ensures Owned(Next(s, Send(r)))
  {
  }

  lemma CloseKeepsOwned<P>(s: State<P>, r: nat)
    requires Owned(s) && Enabled(s, Close(r))
    ensures Owned(Next(s, Close(r)))
  {
  }

  lemma ReceiveKeepsOwned<P>(s: State<P>, c: nat)
    requires Owned(s) && Enabled(s, Receive(c))
    ensures Owned(Next(s, Receive(c)))
  {
  }

  lemma AbortKeepsOwned<P>(s: State<P>)
    requires Owned(s)
    ensures Owned(Next(s, AbortAll))
  {
  }

  function After<P>(s: State<P>, run: seq<Action<P>>): Option<State<P>> {
    if run == [] then Some(s)
    else
      var front := After(s, run[..|run| - 1]);
      if front.Some? && Enabled(front.value, run[|run| - 1]) then Some(Next(front.value, run[|run| - 1])) else None
  }

  lemma {:induction false} OwnedAlways<P>(run: seq<Action<P>>)
    requires After(Init(), run).Some?
    ensures Owned(After(Init(), run).value)
  {
    if run != [] {
      hide Owned, Next, Enabled;
      OwnedAlways(run[..|run| - 1]);
      OwnedStep(After(Init(), run[..|run| - 1]).value, run[|run| - 1]);
    }
  }

  lemma LogShape<P>(c: Chan<P>)
    requires ChanOk(c)
    ensures Sends(c.log) <= 1 && Closes(c.log) <= 1
    ensures forall i :: 0 <= i < |c.log| && c.log[i].Closed? ==> i == |c.log| - 1
  {
    if |c.log| == 2 {
      SmallLogs(c.log[0].payload);
      assert c.log[..1] == [c.log[0]] && c.log == [c.log[0], Closed];
    } else if |c.log| == 1 {
      assert c.log[..0] == [];
    }
  }

  /** In every interleaving each channel gets at most one send and at most one close,
      and nothing after a close. */
  lemma ChannelsUsedOnce<P>(run: seq<Action<P>>, c: nat)
    requires After(Init(), run).Some? && c < |After(Init(), run).value.chans|
    ensures var log := After(Init(), run).value.chans[c].log;
            && Sends(log) <= 1 && Closes(log) <= 1
            && forall i :: 0 <= i < |log| && log[i].Closed? ==> i == |log| - 1
  {
    OwnedAlways(run);
    hide After;
    LogShape(After(Init(), run).value.chans[c]);
  }

  /** In every interleaving a Resolve that is about to send finds room, and the
      channel open. */
  lemma SendNeverBlocks<P>(run: seq<Action<P>>, r: nat)
    requires After(Init(), run).Some? && Enabled(After(Init(), run).value, Send(r))
    ensures var s := After(Init(), run).value;
            HasRoom(s.chans[s.resolvers[r].chan]) && Closed !in s.chans[s.resolvers[r].chan].log
  {
    OwnedAlways(run);
    var s := After(Init(), run).value;
    assert ResolverOk(s, s.resolvers[r]);
  }

  /** A resolve and an abort never both reach a waiter. */
  lemma NoCloseAfterClose<P>(run: seq<Action<P>>, r: nat)
    requires After(Init(), run).Some? && Enabled(After(Init(), run).value, Close(r))
    ensures var s := After(Init(), run).value;
            s.chans[s.resolvers[r].chan].log == [Sent(s.resolvers[r].payload)]
  {
    OwnedAlways(run);
    var s := After(Init(), run).value;
    assert ResolverOk(s, s.resolvers[r]);
  }

  // ----- The registry object -----

  /** Each method that holds the lock takes exactly one step of the machine above. */
  class Registry<P> {
    var pending: map<Key, nat>
    var chans: seq<Chan<P>>
    var resolvers: seq<Resolver<P>>

    ghost function View(): State<P>
      reads this
    {
      State(pending, chans, resolvers)
    }

    constructor ()
      ensures View() == Init()
    {
      pending := map[];
      chans := [];
      resolvers := [];
    }

    method Push(key: Key) returns (chan: nat)
      modifies this
      ensures View() == Next(old(View()), Action.Push(key)) && chan == |old(chans)|
    {
      chan := |chans|;
      chans := chans + [Chan(key, [], 0)];
      pending := pending[key := chan];
    }

    method Forget(key: Key)
      modifies this
      ensures View() == Next(old(View()), Action.Forget(key))
    {
      pending := pending - {key};
    }

    /** AbortAll has dealt with these keys of s. */
    ghost predicate Aborted(s: State<P>, done: set<Key>)
      reads this
    {
      && resolvers == s.resolvers && done <= s.pending.Keys && pending == s.pending - done
      && chans == CloseIn(s.chans, ChansOf(s.pending, done))
    }

    method CloseEntry(key: Key, ghost s: State<P>, ghost done: set<Key>)
      requires Owned(s) && Aborted(s, done) && key in pending
      modifies this
      ensures Aborted(s, done + {key}) && pending == old(pending) - {key}
    {
      CloseOneMore(s, done, key);
      hide Owned, CloseIn;
      chans := chans[pending[key] := Record(chans[pending[key]], Closed)];
      pending := pending - {key};
      assert pending == s.pending - (done + {key});
    }

    /** AbortAll closes the channels one entry at a time, under one lock. */
    method AbortAll()
      requires Owned(View())
      modifies this
      ensures View() == Next(old(View()), Action.AbortAll)
      ensures Owned(View())
    {
      hide Owned, CloseIn, Sends;
      AbortKeepsOwned(View());
      ghost var s := View();
      ghost var done: set<Key> := {};
      NoneClosed(s);
      while pending != map[]
        invariant Aborted(s, done)
        decreases |pending|
      {
        var key :| key in pending;
        CloseEntry(key, s, done);
        done := done + {key};
      }
      assert done == s.pending.Keys by {
        assert forall k :: k in s.pending && k !in done ==> k in pending;
      }
      assert ChansOf(s.pending, done) == s.pending.Values;
    }

    /** Resolve runs its three parts; the entry goes first, so a second Resolve, a
        Forget or an AbortAll can no longer reach the channel. */
    method Resolve(key: Key, payload: P) returns (found: bool)
      requires Owned(View())
      modifies this
      ensures found <==> key in old(pending)
      ensures !found ==> View() == old(View())
      ensures found ==> Owned(View()) && pending == old(pending) - {key}
                        && chans == old(chans)[old(pending)[key] := Chan(key, [Sent(payload), Closed], 0)]
    {
      if key !in pending {
        return false;
      }
      ghost var s0 := View();
      var c := pending[key];
      pending := pending - {key};
      resolvers := resolvers + [Resolver(c, payload, ToSend)];
      var r := |resolvers| - 1;
      assert View() == Next(s0, Detach(key, payload));
      OwnedStep(s0, Detach(key, payload));
      ghost var s1 := View();
      chans := chans[c := Record(chans[c], Sent(payload))];
      resolvers := resolvers[r := Resolver(c, payload, ToClose)];
      assert View() == Next(s1, Send(r));
      OwnedStep(s1, Send(r));
      ghost var s2 := View();
      chans := chans[c := Record(chans[c], Closed)];
      resolvers := resolvers[r := Resolver(c, payload, Finished)];
      assert View() == Next(s2, Close(r));
      OwnedStep(s2, Close(r));
      assert chans[c].log == [Sent(payload), Closed];
      found := true;
    }
  }

  ghost function ChansOf(pending: map<Key, nat>, keys: set<Key>): set<nat> {
    set k | k in keys && k in pending :: pending[k]
  }

  lemma NoneClosed<P>(s: State<P>)
    ensures CloseIn(s.chans, ChansOf(s.pending, {})) == s.chans && s.pending - {} == s.pending
  {
  }

  /** Closing the channel of one more entry. */
  lemma CloseOneMore<P>(s: State<P>, done: set<Key>, key: Key)
    requires Owned(s) && done <= s.pending.Keys && key in s.pending && key !in done
    ensures var chans, c := CloseIn(s.chans, ChansOf(s.pending, done)), s.pending[key];
            && c < |chans|
            && chans[c := Record(chans[c], Closed)] == CloseIn(s.chans, ChansOf(s.pending, done + {key}))
  {
  }
}

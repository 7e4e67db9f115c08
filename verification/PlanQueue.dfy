/** The plan writer of one session as a machine of atomic steps: callers, the queue,
    the consumer goroutines, idle reclaim, lazy restart and StopAll
    (internal/workspace/plan_writer.go). */
module PlanQueue {
  import opened Common
  import opened Plans

  /** Where a consumer goroutine stands. */
  datatype Pc =
    | Select
    | Taken(call: nat)
    | Loaded(call: nat, snapshot: Option<Plan>)
    | IdleFired
    | Reclaiming
    | Draining
    | Exited

  datatype Writer = Writer(queue: seq<nat>, stopped: bool, pc: Pc)

  /** Where a caller of Apply stands. */
  datatype CallPc = Entered | Checked | Waiting | Finished(result: Reply)

  /** One call of Apply; ticket is its place in the order of all enqueues, and reply
      is everything ever sent on its reply channel. */
  datatype Call = Call(edit: Edit, writer: nat, pc: CallPc, ticket: Option<nat>, reply: seq<Reply>)

  /** One successful write. */
  datatype Write = Write(call: nat, edit: Edit, now: int)

  datatype State = State(disk: Option<Plan>, writers: seq<Writer>, current: Option<nat>, stopping: Option<nat>,
                         calls: seq<Call>, tickets: nat, applied: seq<Write>)

  const CAPACITY := 64

  function Init(disk: Option<Plan>): State {
    State(disk, [], None, None, [], 0, [])
  }

  datatype Action =
    | Get
    | Apply(edit: Edit, to: nat)
    | Check(c: nat)
    | Enqueue(c: nat)
    | SeeDone(c: nat)
    | CtxDone(c: nat)
    | TakeReply(c: nat)
    | Take(w: nat)
    | Load(w: nat)
    | Commit(w: nat, now: int, writes: bool)
    | SelectDone(w: nat)
    | TimerFires(w: nat)
    | IdleLock(w: nat)
    | OnIdle(w: nat)
    | Drain(w: nat)
    | Exit(w: nat)
    | StopAll
    | StopSignal
    | StopAllDrain
    | StopAllEnd

  predicate CallAt(s: State, c: nat, pc: CallPc) {
    c < |s.calls| && s.calls[c].pc == pc && s.calls[c].writer < |s.writers|
  }

  predicate WriterAt(s: State, w: nat, pc: Pc) {
    w < |s.writers| && s.writers[w].pc == pc
  }

  predicate Enabled(s: State, a: Action) {
    match a
    case Get => true
    case Apply(_, to) => to < |s.writers|
    case Check(c) => CallAt(s, c, Entered)
    case Enqueue(c) => CallAt(s, c, Checked) && |s.writers[s.calls[c].writer].queue| < CAPACITY
    case SeeDone(c) => CallAt(s, c, Checked) && s.writers[s.calls[c].writer].stopped
    case CtxDone(c) => CallAt(s, c, Checked)
    case TakeReply(c) => CallAt(s, c, Waiting) && s.calls[c].reply != []
    case Take(w) => WriterAt(s, w, Select) && s.writers[w].queue != []
    case Load(w) => w < |s.writers| && s.writers[w].pc.Taken?
    case Commit(w, _, _) => w < |s.writers| && s.writers[w].pc.Loaded? && s.writers[w].pc.call < |s.calls|
    case SelectDone(w) => WriterAt(s, w, Select) && s.writers[w].stopped
    case TimerFires(w) => WriterAt(s, w, Select)
    case IdleLock(w) => WriterAt(s, w, IdleFired)
    case OnIdle(w) => WriterAt(s, w, Reclaiming)
    case Drain(w) => WriterAt(s, w, Draining) && s.writers[w].queue != [] && s.writers[w].queue[0] < |s.calls|
    case Exit(w) => WriterAt(s, w, Draining) && s.writers[w].queue == []
    case StopAll => s.stopping.None? && (s.current.Some? ==> s.current.value < |s.writers|)
    case StopSignal => s.stopping.Some? && s.stopping.value < |s.writers|
    case StopAllDrain =>
      && s.stopping.Some? && WriterAt(s, s.stopping.value, Exited)
      && s.writers[s.stopping.value].queue != [] && s.writers[s.stopping.value].queue[0] < |s.calls|
    case StopAllEnd =>
      && s.stopping.Some? && WriterAt(s, s.stopping.value, Exited) && s.writers[s.stopping.value].queue == []
  }

  function SetWriter(s: State, w: nat, x: Writer): State
    requires w < |s.writers|
  {
    s.(writers := s.writers[w := x])
  }

  function SetCall(s: State, c: nat, x: Call): State
    requires c < |s.calls|
  {
    s.(calls := s.calls[c := x])
  }

  /** Send r on a call's reply channel. */
  function Answer(s: State, c: nat, r: Reply): State
    requires c < |s.calls|
  {
    SetCall(s, c, s.calls[c].(reply := s.calls[c].reply + [r]))
  }

  /** Fail the oldest queued call of a writer. */
  function FailFirst(s: State, w: nat): State
    requires w < |s.writers| && s.writers[w].queue != [] && s.writers[w].queue[0] < |s.calls|
  {
    var x := s.writers[w];
    Answer(SetWriter(s, w, x.(queue := x.queue[1..])), x.queue[0], Stopped)
  }

  function Committed(s: State, w: nat, now: int, writes: bool): State
    requires Enabled(s, Commit(w, now, writes))
  {
    var x := s.writers[w];
    var c := x.pc.call;
    var (after, reply) := Handled(x.pc.snapshot, s.calls[c].edit, now, writes);
    var t := Answer(SetWriter(s, w, x.(pc := Select)), c, reply);
    if reply == Success then t.(disk := after, applied := s.applied + [Write(c, s.calls[c].edit, now)]) else t
  }

  function Next(s: State, a: Action): State
    requires Enabled(s, a)
  {
    match a
    case Get =>
      if s.current.Some? then s
      else s.(writers := s.writers + [Writer([], false, Select)], current := Some(|s.writers|))
    case Apply(edit, to) => s.(calls := s.calls + [Call(edit, to, Entered, None, [])])
    case Check(c) =>
      var stopped := s.writers[s.calls[c].writer].stopped;
      SetCall(s, c, s.calls[c].(pc := if stopped then Finished(Stopped) else Checked))
    case Enqueue(c) =>
      var w := s.calls[c].writer;
      var x := s.writers[w];
      SetCall(SetWriter(s, w, x.(queue := x.queue + [c])), c,
              s.calls[c].(pc := Waiting, ticket := Some(s.tickets))).(tickets := s.tickets + 1)
    case SeeDone(c) => SetCall(s, c, s.calls[c].(pc := Finished(Stopped)))
    case CtxDone(c) => SetCall(s, c, s.calls[c].(pc := Finished(ContextDone)))
    case TakeReply(c) => SetCall(s, c, s.calls[c].(pc := Finished(s.calls[c].reply[0])))
    case Take(w) =>
      var x := s.writers[w];
      SetWriter(s, w, x.(queue := x.queue[1..], pc := Taken(x.queue[0])))
    case Load(w) => SetWriter(s, w, s.writers[w].(pc := Loaded(s.writers[w].pc.call, s.disk)))
    case Commit(w, now, writes) => Committed(s, w, now, writes)
    case SelectDone(w) => SetWriter(s, w, s.writers[w].(pc := Draining))
    case TimerFires(w) => if s.writers[w].queue != [] then s else SetWriter(s, w, s.writers[w].(pc := IdleFired))
    case IdleLock(w) =>
      if s.writers[w].stopped then SetWriter(s, w, s.writers[w].(pc := Draining))
      else SetWriter(s, w, s.writers[w].(stopped := true, pc := Reclaiming))
    case OnIdle(w) =>
      SetWriter(s, w, s.writers[w].(pc := Draining)).(current := if s.current == Some(w) then None else s.current)
    case Drain(w) => FailFirst(s, w)
    case Exit(w) => SetWriter(s, w, s.writers[w].(pc := Exited))
    case StopAll => if s.current.None? then s else s.(current := None, stopping := s.current)
    case StopSignal => SetWriter(s, s.stopping.value, s.writers[s.stopping.value].(stopped := true))
    case StopAllDrain => FailFirst(s, s.stopping.value)
    case StopAllEnd => s.(stopping := None)
  }

  // ----- At most one consumer -----

  /** The goroutine can still execute handle. */
  predicate Live(x: Writer) {
    x.pc.Select? || x.pc.Taken? || x.pc.Loaded? || x.pc.IdleFired?
  }

  ghost predicate SingleConsumer(s: State) {
    forall v, w :: 0 <= v < |s.writers| && 0 <= w < |s.writers| && Live(s.writers[v]) && Live(s.writers[w]) ==> v == w
  }

  /** A writer is not asked for between the start of StopAll and the moment the old consumer
      has stopped handling, unless there is one already. */
  predicate Careful(s: State, a: Action) {
    a.Get? && s.stopping.Some? && s.stopping.value < |s.writers| ==> s.current.Some? || !Live(s.writers[s.stopping.value])
  }

  /** Only the registered writer and the one StopAll waits for may be consuming, and never both. */
  ghost predicate Owned(s: State) {
    && (s.current.Some? ==> s.current.value < |s.writers|)
    && (s.stopping.Some? ==> s.stopping.value < |s.writers|)
    && (forall w :: 0 <= w < |s.writers| && Live(s.writers[w]) ==> s.current == Some(w) || s.stopping == Some(w))
    && (s.current.Some? && s.stopping.Some? ==> !Live(s.writers[s.stopping.value]))
  }

  /** No goroutine came to life and the owner is the same. */
  lemma OwnedKept(s: State, t: State)
    requires Owned(s) && |t.writers| == |s.writers| && t.current == s.current && t.stopping == s.stopping
    requires forall w :: 0 <= w < |s.writers| && Live(t.writers[w]) ==> Live(s.writers[w])
    ensures Owned(t)
  {
  }

  lemma OwnedStep(s: State, a: Action)
    requires Owned(s) && Enabled(s, a) && Careful(s, a)
    ensures Owned(Next(s, a))
  {
    if !a.Get? && !a.OnIdle? && !a.StopAll? && !a.StopAllEnd? {
      NoneRevived(s, a);
      hide Owned, Next, Enabled, Live;
      OwnedKept(s, Next(s, a));
    }
  }

  lemma NoneRevived(s: State, a: Action)
    requires Enabled(s, a) && !a.Get? && !a.OnIdle? && !a.StopAll? && !a.StopAllEnd?
    ensures var t := Next(s, a);
            && |t.writers| == |s.writers| && t.current == s.current && t.stopping == s.stopping
            && forall w :: 0 <= w < |s.writers| && Live(t.writers[w]) ==> Live(s.writers[w])
  {
  }

  // ----- Queues, tickets and replies -----

  function Held(pc: Pc): seq<nat> {
    match pc case Taken(c) => [c] case Loaded(c, _) => [c] case _ => []
  }

  /** The calls a writer still has to answer, oldest first. */
  function Pending(x: Writer): seq<nat> {
    Held(x.pc) + x.queue
  }

  function TicketOf(s: State, c: nat): int {
    if c < |s.calls| && s.calls[c].ticket.Some? then s.calls[c].ticket.value else -1
  }

  ghost predicate IsPending(s: State, w: nat, c: nat) {
    && c < |s.calls| && s.calls[c].writer == w && s.calls[c].pc == Waiting
    && s.calls[c].ticket.Some? && s.calls[c].ticket.value < s.tickets && s.calls[c].reply == []
  }

  ghost predicate QueueOk(s: State, w: nat)
    requires w < |s.writers|
  {
    var p := Pending(s.writers[w]);
    && (forall i :: 0 <= i < |p| ==> IsPending(s, w, p[i]))
    && (forall i, j :: 0 <= i < j < |p| ==> TicketOf(s, p[i]) < TicketOf(s, p[j]))
  }

  ghost predicate QueuesOk(s: State) {
    forall w :: 0 <= w < |s.writers| ==> QueueOk(s, w)
  }

  /** A call's result agrees with what was sent to it. */
  ghost predicate CallOk(s: State, c: nat)
    requires c < |s.calls|
  {
    var x := s.calls[c];
    && |x.reply| <= 1
    && (x.ticket.Some? ==> x.ticket.value < s.tickets)
    && (x.pc.Entered? || x.pc.Checked? ==> x.reply == [] && x.ticket.None?)
    && (x.pc.Waiting? ==> x.ticket.Some?)
    && (x.pc.Finished? ==> x.reply == [x.pc.result]
                           || (x.reply == [] && x.ticket.None? && (x.pc.result == Stopped || x.pc.result == ContextDone)))
  }

  ghost predicate CallsOk(s: State) {
    forall c :: 0 <= c < |s.calls| ==> CallOk(s, c)
  }

  lemma QueueFrame(s: State, t: State, w: nat)
    requires w < |s.writers| && QueueOk(s, w) && w < |t.writers| && s.tickets <= t.tickets
    requires Pending(t.writers[w]) == Pending(s.writers[w])
    requires |s.calls| <= |t.calls| && forall c :: 0 <= c < |s.calls| && c in Pending(s.writers[w]) ==> t.calls[c] == s.calls[c]
    ensures QueueOk(t, w)
  {
  }

  /** No pending call was touched and no pending list changed. */
  ghost predicate SamePending(s: State, t: State) {
    && |s.writers| <= |t.writers| && |s.calls| <= |t.calls| && s.tickets <= t.tickets
    && (forall w :: 0 <= w < |t.writers| ==> Pending(t.writers[w]) == if w < |s.writers| then Pending(s.writers[w]) else [])
    && (forall c :: 0 <= c < |s.calls| && s.calls[c].pc == Waiting && s.calls[c].reply == [] ==> t.calls[c] == s.calls[c])
  }

  lemma SamePendingOk(s: State, t: State)
    requires QueuesOk(s) && SamePending(s, t)
    ensures QueuesOk(t)
  {
    hide Pending, Held;
    forall w | 0 <= w < |t.writers| ensures QueueOk(t, w) {
      if w < |s.writers| {
        assert QueueOk(s, w);
        QueueFrame(s, t, w);
      }
    }
  }

  /** The oldest pending call of writer w was answered. */
  ghost predicate PopsFirst(s: State, t: State, w: nat, c: nat) {
    && w < |s.writers| == |t.writers| && |s.calls| == |t.calls| && s.tickets == t.tickets
    && Pending(s.writers[w]) != [] && Pending(s.writers[w])[0] == c && Pending(t.writers[w]) == Pending(s.writers[w])[1..]
    && (forall v :: 0 <= v < |s.writers| && v != w ==> Pending(t.writers[v]) == Pending(s.writers[v]))
    && (forall d :: 0 <= d < |s.calls| && d != c ==> t.calls[d] == s.calls[d])
  }

  lemma PopsFirstOk(s: State, t: State, w: nat, c: nat)
    requires QueuesOk(s) && PopsFirst(s, t, w, c)
    ensures QueuesOk(t)
  {
    hide Pending, Held;
    var p := Pending(s.writers[w]);
    assert QueueOk(s, w) && IsPending(s, w, p[0]);
    forall v | 0 <= v < |t.writers| ensures QueueOk(t, v) {
      assert QueueOk(s, v);
      if v == w {
        assert forall i :: 0 < i < |p| ==> IsPending(s, w, p[i]) && p[i] != c && TicketOf(s, p[0]) < TicketOf(s, p[i]);
      } else {
        assert forall i :: 0 <= i < |Pending(s.writers[v])| ==> IsPending(s, v, Pending(s.writers[v])[i]);
        QueueFrame(s, t, v);
      }
    }
  }

  lemma EnqueueOk(s: State, c: nat)
    requires QueuesOk(s) && CallsOk(s) && Enabled(s, Enqueue(c))
    ensures QueuesOk(Next(s, Enqueue(c)))
  {
    var t := Next(s, Enqueue(c));
    var w := s.calls[c].writer;
    assert Pending(t.writers[w]) == Pending(s.writers[w]) + [c];
    assert CallOk(s, c);
    hide Pending, Held;
    forall v | 0 <= v < |t.writers| ensures QueueOk(t, v) {
      var p := Pending(s.writers[v]);
      assert QueueOk(s, v);
      assert forall i :: 0 <= i < |p| ==> IsPending(s, v, p[i]) && p[i] != c && TicketOf(s, p[i]) < s.tickets;
      if v != w {
        QueueFrame(s, t, v);
      } else {
        assert TicketOf(t, c) == s.tickets;
        assert forall i :: 0 <= i < |p| ==> TicketOf(t, p[i]) == TicketOf(s, p[i]) && IsPending(t, w, p[i]);
        assert IsPending(t, w, c);
      }
    }
  }

  predicate Answering(a: Action) {
    a.Commit? || a.Drain? || a.StopAllDrain?
  }

  lemma CommitPops(s: State, w: nat, now: int, writes: bool)
    requires Enabled(s, Commit(w, now, writes))
    ensures var t := Committed(s, w, now, writes);
            && PopsFirst(s, t, w, s.writers[w].pc.call) && t.calls[s.writers[w].pc.call].reply != []
            && forall d :: TicketOf(t, d) == TicketOf(s, d)
  {
    hide Handled;
    var c, t := s.writers[w].pc.call, Committed(s, w, now, writes);
    assert Pending(s.writers[w])[0] == c && Pending(t.writers[w]) == Pending(s.writers[w])[1..];
    hide Pending, Held;
    assert forall r: seq<Reply>, x :: r + [x] != [];
  }

  lemma FailPops(s: State, w: nat)
    requires w < |s.writers| && s.writers[w].queue != [] && s.writers[w].queue[0] < |s.calls| && Held(s.writers[w].pc) == []
    ensures var t := FailFirst(s, w);
            PopsFirst(s, t, w, s.writers[w].queue[0]) && t.calls[s.writers[w].queue[0]].reply != []
  {
    var t := FailFirst(s, w);
    assert Pending(s.writers[w]) == s.writers[w].queue && Pending(t.writers[w]) == t.writers[w].queue;
    hide Pending, Held;
    assert forall r: seq<Reply>, x :: r + [x] != [];
  }

  /** The first call in a writer's hands is answered. */
  lemma AnsweringPops(s: State, a: Action)
    requires Enabled(s, a) && Answering(a)
    ensures var w := if a.StopAllDrain? then s.stopping.value else a.w;
            var t := Next(s, a);
            w < |s.writers| && Pending(s.writers[w]) != [] &&
            PopsFirst(s, t, w, Pending(s.writers[w])[0]) && Pending(s.writers[w])[0] < |t.calls| &&
            t.calls[Pending(s.writers[w])[0]].reply != []
  {
    match a
    case Commit(w, now, writes) =>
      CommitPops(s, w, now, writes);
      hide PopsFirst, Committed;
    case Drain(w) =>
      FailPops(s, w);
      hide PopsFirst, FailFirst;
    case StopAllDrain =>
      FailPops(s, s.stopping.value);
      hide PopsFirst, FailFirst;
  }

  lemma QueuesStep(s: State, a: Action)
    requires QueuesOk(s) && CallsOk(s) && Enabled(s, a)
    ensures QueuesOk(Next(s, a))
  {
    if a.Enqueue? {
      EnqueueOk(s, a.c);
    } else if Answering(a) {
      AnsweringPops(s, a);
      var w := if a.StopAllDrain? then s.stopping.value else a.w;
      hide Next, Enabled, PopsFirst, QueuesOk, CallsOk, Pending;
      PopsFirstOk(s, Next(s, a), w, Pending(s.writers[w])[0]);
    } else {
      SamePendingStep(s, a);
    }
  }

  predicate Quiet(a: Action) {
    !a.Enqueue? && !Answering(a)
  }

  lemma SamePendingStep(s: State, a: Action)
    requires QueuesOk(s) && CallsOk(s) && Enabled(s, a) && Quiet(a)
    ensures SamePending(s, Next(s, a)) && QueuesOk(Next(s, a))
  {
    PendingKept(s, a);
    hide QueuesOk, SamePending;
    SamePendingOk(s, Next(s, a));
  }

  /** Writer w may have moved, but still has the same calls to answer. */
  lemma OneWriterMoved(s: State, w: nat, x: Writer)
    requires w < |s.writers| && Pending(x) == Pending(s.writers[w])
    ensures SamePending(s, SetWriter(s, w, x))
  {
  }

  lemma PendingKept(s: State, a: Action)
    requires Enabled(s, a) && Quiet(a)
    ensures SamePending(s, Next(s, a))
  {
    if a.Check? || a.SeeDone? || a.CtxDone? || a.TakeReply? {
      CallMoved(s, a);
    } else if !a.Get? && !a.Apply? && !a.StopAll? && !a.StopSignal? && !a.StopAllEnd? {
      WriterMoved(s, a);
    } else if a.StopSignal? {
      OneWriterMoved(s, s.stopping.value, Next(s, a).writers[s.stopping.value]);
    }
  }

  lemma CallMoved(s: State, a: Action)
    requires Enabled(s, a) && (a.Check? || a.SeeDone? || a.CtxDone? || a.TakeReply?)
    ensures SamePending(s, Next(s, a))
  {
  }

  lemma WriterMoved(s: State, a: Action)
    requires Enabled(s, a) && Quiet(a)
    requires a.Take? || a.Load? || a.SelectDone? || a.TimerFires? || a.IdleLock? || a.OnIdle? || a.Exit?
    ensures SamePending(s, Next(s, a))
  {
    var x := Next(s, a).writers[a.w];
    assert Pending(x) == Pending(s.writers[a.w]);
    OneWriterMoved(s, a.w, x);
    hide Pending;
  }

  lemma CallsStep(s: State, a: Action)
    requires QueuesOk(s) && CallsOk(s) && Enabled(s, a)
    ensures CallsOk(Next(s, a))
  {
    hide CallOk;
    forall c | 0 <= c < |Next(s, a).calls| ensures CallOk(Next(s, a), c) {
      CallStep(s, a, c);
    }
  }

  lemma CallStep(s: State, a: Action, c: nat)
    requires QueuesOk(s) && CallsOk(s) && Enabled(s, a) && c < |Next(s, a).calls|
    ensures CallOk(Next(s, a), c)
  {
    assert c < |s.calls| ==> CallOk(s, c);
    hide QueuesOk, CallsOk;
    if Answering(a) {
      AnsweredCallStep(s, a, c);
    } else {
      OtherCallStep(s, a, c);
    }
  }

  lemma OtherCallStep(s: State, a: Action, c: nat)
    requires Enabled(s, a) && c < |Next(s, a).calls| && (c < |s.calls| ==> CallOk(s, c)) && !Answering(a)
    ensures CallOk(Next(s, a), c)
  {
  }

  lemma AnsweredCallStep(s: State, a: Action, c: nat)
    requires QueuesOk(s) && Enabled(s, a) && c < |s.calls| && CallOk(s, c) && Answering(a)
    ensures CallOk(Next(s, a), c)
  {
    hide Handled;
    var w := if a.StopAllDrain? then s.stopping.value else a.w;
    FirstIsPending(s, w, Pending(s.writers[w])[0]);
    hide QueuesOk, QueueOk;
  }

  lemma FirstIsPending(s: State, w: nat, c: nat)
    requires QueuesOk(s) && w < |s.writers| && Pending(s.writers[w]) != [] && c == Pending(s.writers[w])[0]
    ensures IsPending(s, w, c)
  {
    assert QueueOk(s, w);
  }

  // ----- Serialisation -----

  /** The plan after a list of edits, made one after the other, each with the time of its
      write; an edit that refuses changes nothing. */
  function Replay(init: Option<Plan>, ws: seq<Write>): Option<Plan> {
    if ws == [] then init
    else
      var p, last := Replay(init, ws[..|ws| - 1]), ws[|ws| - 1];
      if p.None? || last.edit(p.value).None? then p
      else Some(last.edit(p.value).value.(updatedAt := last.now))
  }

  /** Each edit of the list can be applied to what the earlier ones left. */
  ghost predicate EachSucceeds(init: Option<Plan>, ws: seq<Write>) {
    forall k :: 0 <= k < |ws| ==> Applicable(Replay(init, ws[..k]), ws[k].edit)
  }

  /** The writes are exactly the calls that were answered with success, in enqueue order. */
  ghost predicate AppliedOk(s: State) {
    && (forall k :: 0 <= k < |s.applied| ==> WriteOk(s, s.applied[k]))
    && (forall j, k :: 0 <= j < k < |s.applied| ==> TicketOf(s, s.applied[j].call) < TicketOf(s, s.applied[k].call))
    && (forall c :: 0 <= c < |s.calls| && s.calls[c].reply == [Success] ==> Written(s, c))
  }

  ghost predicate WriteOk(s: State, x: Write) {
    && x.call < |s.calls| && s.calls[x.call].reply == [Success] && s.calls[x.call].edit == x.edit
    && s.calls[x.call].ticket.Some?
  }

  ghost predicate Written(s: State, c: nat) {
    exists k :: 0 <= k < |s.applied| && s.applied[k].call == c
  }

  /** Whatever a live consumer still has to do was enqueued after all that is written. */
  ghost predicate AheadOk(s: State) {
    forall w, c, k :: 0 <= w < |s.writers| && Live(s.writers[w]) && c in Pending(s.writers[w]) && 0 <= k < |s.applied| ==>
      TicketOf(s, s.applied[k].call) < TicketOf(s, c)
  }

  /** A live consumer's copy of the plan is the one on disk. */
  ghost predicate SnapshotOk(s: State) {
    forall w :: 0 <= w < |s.writers| && s.writers[w].pc.Loaded? ==> s.writers[w].pc.snapshot == s.disk
  }

  ghost predicate DiskOk(s: State, init: Option<Plan>) {
    s.disk == Replay(init, s.applied) && EachSucceeds(init, s.applied)
  }

  ghost predicate Inv(s: State, init: Option<Plan>) {
    Owned(s) && QueuesOk(s) && CallsOk(s) && AppliedOk(s) && AheadOk(s) && SnapshotOk(s) && DiskOk(s, init)
  }

  lemma SnapshotStep(s: State, a: Action)
    requires Owned(s) && SnapshotOk(s) && Enabled(s, a)
    ensures SnapshotOk(Next(s, a))
  {
    hide Handled;
  }

  lemma {:induction false} ReplayExtend(init: Option<Plan>, ws: seq<Write>, x: Write)
    requires EachSucceeds(init, ws) && Applicable(Replay(init, ws), x.edit)
    ensures Replay(init, ws + [x]) == Some(x.edit(Replay(init, ws).value).value.(updatedAt := x.now))
    ensures EachSucceeds(init, ws + [x])
  {
    var r := ws + [x];
    assert r[..|ws|] == ws;
    hide Valid, KeepsFrozen;
    forall k | 0 <= k < |r| ensures Applicable(Replay(init, r[..k]), r[k].edit) {
      if k < |ws| {
        assert r[..k] == ws[..k];
      }
    }
  }

  lemma DiskStep(s: State, a: Action, init: Option<Plan>)
    requires DiskOk(s, init) && SnapshotOk(s) && Enabled(s, a)
    ensures DiskOk(Next(s, a), init)
  {
    if a.Commit? {
      CommitStep(s, a.w, a.now, a.writes, init);
    } else {
      hide Handled;
    }
  }

  lemma CommitStep(s: State, w: nat, now: int, writes: bool, init: Option<Plan>)
    requires DiskOk(s, init) && SnapshotOk(s) && Enabled(s, Commit(w, now, writes))
    ensures DiskOk(Committed(s, w, now, writes), init)
  {
    var c := s.writers[w].pc.call;
    var edit := s.calls[c].edit;
    HandledExactly(s.disk, edit, now, writes);
    hide Handled, Applicable, EachSucceeds, Replay;
    if Handled(s.disk, edit, now, writes).1 == Success {
      ReplayExtend(init, s.applied, Write(c, edit, now));
    }
  }

  /** Calls that were already answered keep their ticket, edit and answer. */
  ghost predicate AnsweredKept(s: State, t: State) {
    && |s.calls| <= |t.calls| && t.applied == s.applied
    && (forall c :: 0 <= c < |s.calls| && s.calls[c].reply == [Success] ==>
          t.calls[c].reply == [Success] && t.calls[c].edit == s.calls[c].edit && t.calls[c].ticket == s.calls[c].ticket)
    && (forall c :: 0 <= c < |t.calls| && t.calls[c].reply == [Success] ==> c < |s.calls| && s.calls[c].reply == [Success])
  }

  lemma AnsweredKeptOk(s: State, t: State)
    requires AppliedOk(s) && AnsweredKept(s, t)
    ensures AppliedOk(t)
  {
  }

  lemma AnsweredKeptStep(s: State, a: Action)
    requires QueuesOk(s) && CallsOk(s) && Enabled(s, a) && !a.Commit?
    ensures AnsweredKept(s, Next(s, a))
  {
    hide AnsweredKept, QueueOk, IsPending, CallOk;
    match a
    case Drain(w) => FailKeeps(s, w);
    case StopAllDrain => FailKeeps(s, s.stopping.value);
    case _ => OthersKeep(s, a);
  }

  lemma FailKeeps(s: State, w: nat)
    requires QueuesOk(s) && w < |s.writers| && s.writers[w].queue != [] && s.writers[w].queue[0] < |s.calls|
    requires Held(s.writers[w].pc) == []
    ensures AnsweredKept(s, FailFirst(s, w))
  {
    assert QueueOk(s, w) && IsPending(s, w, Pending(s.writers[w])[0]);
    hide QueuesOk, QueueOk;
    assert FailFirst(s, w).calls[s.writers[w].queue[0]].reply[0] == Stopped;
  }

  lemma OthersKeep(s: State, a: Action)
    requires CallsOk(s) && Enabled(s, a) && !Answering(a)
    ensures AnsweredKept(s, Next(s, a))
  {
    if a.Enqueue? {
      assert CallOk(s, a.c);
    }
    hide CallsOk, CallOk;
  }

  /** A commit answers the call it holds, and only that one. */
  ghost predicate Answers(s: State, t: State, c: nat, r: Reply) {
    && c < |s.calls| == |t.calls| && s.calls[c].reply == [] && s.calls[c].ticket.Some?
    && t.calls == s.calls[c := s.calls[c].(reply := [r])]
  }

  lemma WriteAppended(s: State, t: State, x: Write)
    requires AppliedOk(s) && Answers(s, t, x.call, Success) && x.edit == s.calls[x.call].edit && t.applied == s.applied + [x]
    requires forall k :: 0 <= k < |s.applied| ==> TicketOf(s, s.applied[k].call) < TicketOf(s, x.call)
    ensures AppliedOk(t)
  {
    forall k | 0 <= k < |t.applied| ensures WriteOk(t, t.applied[k]) {
      assert k < |s.applied| ==> WriteOk(s, s.applied[k]);
    }
    assert forall c :: TicketOf(t, c) == TicketOf(s, c);
    forall d | 0 <= d < |t.calls| && t.calls[d].reply == [Success] ensures Written(t, d) {
      if d == x.call {
        assert t.applied[|s.applied|].call == d;
      } else {
        assert Written(s, d);
        var k :| 0 <= k < |s.applied| && s.applied[k].call == d;
        assert t.applied[k].call == d;
      }
    }
  }

  lemma CommitAnswers(s: State, w: nat, now: int, writes: bool)
    requires QueuesOk(s) && Enabled(s, Commit(w, now, writes))
    ensures var c := s.writers[w].pc.call;
            && Answers(s, Committed(s, w, now, writes), c, Handled(s.writers[w].pc.snapshot, s.calls[c].edit, now, writes).1)
            && c in Pending(s.writers[w])
  {
    hide Handled;
    assert QueueOk(s, w) && IsPending(s, w, Pending(s.writers[w])[0]);
    assert forall r: Reply :: [] + [r] == [r];
  }

  lemma CommitApplied(s: State, w: nat, now: int, writes: bool)
    requires QueuesOk(s) && CallsOk(s) && AppliedOk(s) && AheadOk(s) && Enabled(s, Commit(w, now, writes))
    ensures AppliedOk(Committed(s, w, now, writes))
  {
    var t := Committed(s, w, now, writes);
    var c := s.writers[w].pc.call;
    var r := Handled(s.writers[w].pc.snapshot, s.calls[c].edit, now, writes).1;
    hide Handled, AppliedOk, Pending;
    CommitAnswers(s, w, now, writes);
    if r == Success {
      WriteAppended(s, t, Write(c, s.calls[c].edit, now));
    } else {
      assert t.calls[c].reply[0] == r;
      AnsweredKeptOk(s, t);
    }
  }

  lemma AppliedStep(s: State, a: Action)
    requires QueuesOk(s) && CallsOk(s) && AppliedOk(s) && AheadOk(s) && Enabled(s, a)
    ensures AppliedOk(Next(s, a))
  {
    if a.Commit? {
      CommitApplied(s, a.w, a.now, a.writes);
    } else {
      AnsweredKeptStep(s, a);
      AnsweredKeptOk(s, Next(s, a));
    }
  }

  lemma TicketsBelow(s: State, k: nat)
    requires AppliedOk(s) && CallsOk(s) && k < |s.applied|
    ensures TicketOf(s, s.applied[k].call) < s.tickets && s.applied[k].call < |s.calls|
    ensures s.calls[s.applied[k].call].reply == [Success]
  {
    assert WriteOk(s, s.applied[k]);
    assert CallOk(s, s.applied[k].call);
  }

  /** Only writer w is live; it gave up the first of its pending calls, which may have been written. */
  lemma AheadAfterPop(s: State, t: State, w: nat, c: nat)
    requires AheadOk(s) && w < |s.writers| && QueueOk(s, w) && PopsFirst(s, t, w, c) && Live(s.writers[w])
    requires forall v :: 0 <= v < |t.writers| && Live(t.writers[v]) ==> v == w
    requires forall d :: TicketOf(t, d) == TicketOf(s, d)
    requires |s.applied| <= |t.applied| <= |s.applied| + 1 && t.applied[..|s.applied|] == s.applied
    requires |t.applied| > |s.applied| ==> t.applied[|s.applied|].call == c
    ensures AheadOk(t)
  {
    var p := Pending(s.writers[w]);
    hide Pending, Held, TicketOf;
    forall v, d, k | 0 <= v < |t.writers| && Live(t.writers[v]) && d in Pending(t.writers[v]) && 0 <= k < |t.applied|
      ensures TicketOf(t, t.applied[k].call) < TicketOf(t, d)
    {
      var i :| 0 <= i < |p[1..]| && p[1..][i] == d;
      assert p[i + 1] == d && TicketOf(s, p[0]) < TicketOf(s, p[i + 1]);
      if k < |s.applied| {
        assert t.applied[..|s.applied|][k] == s.applied[k];
      }
    }
  }

  lemma AheadAfterCommit(s: State, w: nat, now: int, writes: bool)
    requires Owned(s) && QueuesOk(s) && AheadOk(s) && Enabled(s, Commit(w, now, writes))
    ensures AheadOk(Committed(s, w, now, writes))
  {
    hide Handled, AheadOk, QueueOk;
    var t := Committed(s, w, now, writes);
    CommitPops(s, w, now, writes);
    assert QueueOk(s, w);
    hide QueuesOk, IsPending;
    AheadAfterPop(s, t, w, s.writers[w].pc.call);
  }

  lemma AheadAfterEnqueue(s: State, c: nat)
    requires QueuesOk(s) && CallsOk(s) && AppliedOk(s) && AheadOk(s) && Enabled(s, Enqueue(c))
    ensures AheadOk(Next(s, Enqueue(c)))
  {
    var t := Next(s, Enqueue(c));
    assert CallOk(s, c);
    forall w, d, k | 0 <= w < |t.writers| && Live(t.writers[w]) && d in Pending(t.writers[w]) && 0 <= k < |t.applied|
      ensures TicketOf(t, t.applied[k].call) < TicketOf(t, d)
    {
      TicketsBelow(s, k);
      assert d == c || d in Pending(s.writers[w]);
    }
  }

  lemma AheadAfterDrain(s: State, a: Action)
    requires QueuesOk(s) && AheadOk(s) && Enabled(s, a) && (a.Drain? || a.StopAllDrain?)
    ensures AheadOk(Next(s, a))
  {
    assert forall d :: TicketOf(Next(s, a), d) == TicketOf(s, d);
  }

  /** Nothing was written, no ticket changed, and a live goroutine with work had that work before. */
  ghost predicate NothingAhead(s: State, t: State) {
    && t.applied == s.applied && |s.calls| <= |t.calls|
    && (forall d :: 0 <= d < |s.calls| ==> TicketOf(t, d) == TicketOf(s, d))
    && (forall w :: 0 <= w < |t.writers| && Live(t.writers[w]) && Pending(t.writers[w]) != [] ==>
          w < |s.writers| && Live(s.writers[w]) && Pending(s.writers[w]) == Pending(t.writers[w]))
  }

  lemma AheadKept(s: State, t: State)
    requires QueuesOk(s) && CallsOk(s) && AppliedOk(s) && AheadOk(s) && NothingAhead(s, t)
    ensures AheadOk(t)
  {
  }

  lemma NothingAheadStep(s: State, a: Action)
    requires Enabled(s, a) && Quiet(a)
    ensures NothingAhead(s, Next(s, a))
  {
    TicketsKept(s, a);
    PendingKept(s, a);
    LiveBefore(s, a);
    hide TicketOf, Pending, Live, Next, Enabled;
  }

  lemma LiveBefore(s: State, a: Action)
    requires Enabled(s, a) && Quiet(a)
    ensures forall w :: 0 <= w < |s.writers| && w < |Next(s, a).writers| && Live(Next(s, a).writers[w]) ==> Live(s.writers[w])
  {
  }

  lemma TicketsKept(s: State, a: Action)
    requires Enabled(s, a) && Quiet(a)
    ensures |s.calls| <= |Next(s, a).calls| && Next(s, a).applied == s.applied
    ensures forall d :: 0 <= d < |s.calls| ==> TicketOf(Next(s, a), d) == TicketOf(s, d)
  {
  }

  /** The remaining actions neither wake a goroutine nor touch a ticket. */
  lemma AheadQuiet(s: State, a: Action)
    requires QueuesOk(s) && CallsOk(s) && AppliedOk(s) && AheadOk(s) && Enabled(s, a) && Quiet(a)
    ensures AheadOk(Next(s, a))
  {
    hide AheadOk, AppliedOk;
    NothingAheadStep(s, a);
    hide QueuesOk, CallsOk, NothingAhead;
    AheadKept(s, Next(s, a));
  }

  lemma AheadStep(s: State, a: Action)
    requires Owned(s) && QueuesOk(s) && CallsOk(s) && AppliedOk(s) && AheadOk(s) && Enabled(s, a)
    ensures AheadOk(Next(s, a))
  {
    match a
    case Enqueue(c) => AheadAfterEnqueue(s, c);
    case Commit(w, now, writes) => AheadAfterCommit(s, w, now, writes);
    case Drain(_) => AheadAfterDrain(s, a);
    case StopAllDrain => AheadAfterDrain(s, a);
    case _ => AheadQuiet(s, a);
  }

  lemma InvStep(s: State, a: Action, init: Option<Plan>)
    requires Inv(s, init) && Enabled(s, a) && Careful(s, a)
    ensures Inv(Next(s, a), init)
  {
    OwnedStep(s, a);
    QueuesStep(s, a);
    CallsStep(s, a);
    AppliedStep(s, a);
    AheadStep(s, a);
    SnapshotStep(s, a);
    DiskStep(s, a, init);
  }

  // ----- Whole runs -----

  /** The actions can be taken one after the other from s. */
  ghost predicate IsRun(s: State, run: seq<Action>)
    decreases |run|, 0
  {
    run == [] || (IsRun(s, run[..|run| - 1]) && Enabled(After(s, run[..|run| - 1]), run[|run| - 1]))
  }

  ghost function After(s: State, run: seq<Action>): State
    requires IsRun(s, run)
    decreases |run|, 1
  {
    if run == [] then s else Next(After(s, run[..|run| - 1]), run[|run| - 1])
  }

  /** Every request for a writer is careful. */
  ghost predicate CarefulRun(s: State, run: seq<Action>)
    requires IsRun(s, run)
    decreases |run|
  {
    run == [] || (CarefulRun(s, run[..|run| - 1]) && Careful(After(s, run[..|run| - 1]), run[|run| - 1]))
  }

  lemma {:induction false} RunInv(init: Option<Plan>, run: seq<Action>)
    requires IsRun(Init(init), run) && CarefulRun(Init(init), run)
    ensures Inv(After(Init(init), run), init)
    decreases |run|
  {
    if run != [] {
      hide Inv, Next, Enabled, Careful;
      var front := run[..|run| - 1];
      RunInv(init, front);
      InvStep(After(Init(init), front), run[|run| - 1], init);
    } else {
      assert Owned(Init(init));
    }
  }

  /** Serialisation: in every interleaving the disk holds the first plan with exactly
      the successful calls applied, one after the other and in the order in which they
      were enqueued; at most one consumer runs, and no call is answered twice. */
  lemma Serialised(init: Option<Plan>, run: seq<Action>)
    requires IsRun(Init(init), run) && CarefulRun(Init(init), run)
    ensures var s := After(Init(init), run);
            && SingleConsumer(s)
            && s.disk == Replay(init, s.applied) && EachSucceeds(init, s.applied)
            && AppliedOk(s)
            && (forall c :: 0 <= c < |s.calls| ==> |s.calls[c].reply| <= 1)
  {
    var s := After(Init(init), run);
    hide IsRun, After, CarefulRun, Live, AppliedOk, QueuesOk, AheadOk, SnapshotOk, SingleConsumer;
    RunInv(init, run);
    OwnedIsSingle(s);
    hide Owned, Replay, EachSucceeds;
    forall c | 0 <= c < |s.calls| ensures |s.calls[c].reply| <= 1 {
      assert CallOk(s, c);
    }
  }

  /** A call that came back with anything but success has had, and will have, no effect;
      one that came back with success was written. */
  lemma FailedCallsHaveNoEffect(init: Option<Plan>, run: seq<Action>, c: nat, result: Reply)
    requires IsRun(Init(init), run) && CarefulRun(Init(init), run)
    requires var s := After(Init(init), run); c < |s.calls| && s.calls[c].pc == Finished(result)
    ensures var s := After(Init(init), run); Written(s, c) <==> result == Success
    ensures var s := After(Init(init), run);
            forall w :: 0 <= w < |s.writers| ==> c !in Pending(s.writers[w])
  {
    RunInv(init, run);
    var s := After(Init(init), run);
    assert CallOk(s, c);
    if Written(s, c) {
      var k :| 0 <= k < |s.applied| && s.applied[k].call == c;
      assert WriteOk(s, s.applied[k]);
    }
    hide Inv, AppliedOk;
    forall w | 0 <= w < |s.writers| ensures c !in Pending(s.writers[w]) {
      assert QueueOk(s, w);
      FinishedIsGone(s, w, c);
    }
  }

  lemma FinishedIsGone(s: State, w: nat, c: nat)
    requires w < |s.writers| && QueueOk(s, w) && c < |s.calls| && s.calls[c].pc.Finished?
    ensures c !in Pending(s.writers[w])
  {
  }

  /** The plan after the first k writes. */
  function Version(init: Option<Plan>, ws: seq<Write>, k: nat): Option<Plan>
    requires k <= |ws|
  {
    Replay(init, ws[..k])
  }

  /** The time of the write concerns neither validity nor frozen tasks. */
  lemma EditIsTransition(p: Option<Plan>, edit: Edit, now: int)
    requires Applicable(p, edit)
    ensures var q := edit(p.value).value.(updatedAt := now); Valid(q) && KeepsFrozen(p.value, q)
  {
  }

  lemma VersionStep(init: Option<Plan>, ws: seq<Write>, k: nat)
    requires k < |ws| && EachSucceeds(init, ws)
    ensures Version(init, ws, k).Some? && Version(init, ws, k + 1).Some? && Valid(Version(init, ws, k + 1).value)
    ensures KeepsFrozen(Version(init, ws, k).value, Version(init, ws, k + 1).value)
  {
    assert ws[..k + 1][..k] == ws[..k];
    EditIsTransition(Version(init, ws, k), ws[k].edit, ws[k].now);
  }

  /** Every version ever written is valid, and a task once frozen is present and frozen ever after. */
  lemma {:induction false} VersionsValidAndFrozen(init: Option<Plan>, ws: seq<Write>, j: nat, k: nat)
    requires j < k <= |ws| && EachSucceeds(init, ws)
    ensures Version(init, ws, j).Some? && Version(init, ws, k).Some? && Valid(Version(init, ws, k).value)
    ensures KeepsFrozen(Version(init, ws, j).value, Version(init, ws, k).value)
    decreases k - j
  {
    VersionStep(init, ws, j);
    if j + 1 < k {
      VersionsValidAndFrozen(init, ws, j + 1, k);
    }
  }

  // ----- Asking for a writer while StopAll is under way -----

  /** A writer asked for makes a second consumer exactly when the request was not careful. */
  lemma RestartDuringStopAll(s: State)
    requires Owned(s)
    ensures SingleConsumer(Next(s, Get)) <==> Careful(s, Get)
  {
    var t := Next(s, Get);
    if Careful(s, Get) {
      OwnedStep(s, Get);
    } else {
      assert Live(t.writers[|s.writers|]);
      assert t.writers[s.stopping.value] == s.writers[s.stopping.value];
    }
  }

  lemma {:induction false} Prefix(s: State, run: seq<Action>, k: nat)
    requires IsRun(s, run) && k <= |run|
    ensures IsRun(s, run[..k])
    ensures CarefulRun(s, run) ==> CarefulRun(s, run[..k])
    decreases |run|
  {
    if k < |run| {
      assert run[..|run| - 1][..k] == run[..k];
      Prefix(s, run[..|run| - 1], k);
    } else {
      assert run[..k] == run;
    }
  }

  /** One consumer after each of the first steps of a run. */
  ghost predicate SingleThroughout(s: State, run: seq<Action>)
    requires IsRun(s, run)
    decreases |run|
  {
    SingleConsumer(After(s, run)) && (run == [] || SingleThroughout(s, run[..|run| - 1]))
  }

  /** Throughout a run there is at most one consumer if and only if every request for a
      writer during StopAll finds one or finds that the old consumer has stopped handling. */
  lemma {:induction false} OneConsumerIff(init: Option<Plan>, run: seq<Action>)
    requires IsRun(Init(init), run)
    ensures SingleThroughout(Init(init), run) <==> CarefulRun(Init(init), run)
    decreases |run|
  {
    if run != [] {
      var front, a := run[..|run| - 1], run[|run| - 1];
      OneConsumerIff(init, front);
      if CarefulRun(Init(init), front) {
        RunInv(init, front);
        hide Enabled, Live, SingleConsumer, Owned, QueuesOk, CallsOk, AppliedOk, AheadOk, SnapshotOk, DiskOk;
        if a.Get? {
          RestartDuringStopAll(After(Init(init), front));
        } else {
          OwnedStep(After(Init(init), front), a);
          OwnedIsSingle(After(Init(init), run));
        }
      }
    }
  }

  lemma OwnedIsSingle(s: State)
    requires Owned(s)
    ensures SingleConsumer(s)
  {
  }

  lemma EmptyRun(s: State) returns (run: seq<Action>)
    ensures IsRun(s, run) && CarefulRun(s, run) && After(s, run) == s
  {
    run := [];
  }

  lemma Extend(s: State, run: seq<Action>, a: Action) returns (longer: seq<Action>)
    requires IsRun(s, run) && Enabled(After(s, run), a)
    ensures IsRun(s, longer) && After(s, longer) == Next(After(s, run), a)
    ensures CarefulRun(s, run) && Careful(After(s, run), a) ==> CarefulRun(s, longer)
  {
    longer := run + [a];
    assert longer[..|longer| - 1] == run;
  }

  /** The first caller's edit is loaded by the first consumer when StopAll begins. */
  lemma StoppedMidway(p: Plan, first: Edit) returns (run: seq<Action>)
    ensures IsRun(Init(Some(p)), run)
    ensures After(Init(Some(p)), run) ==
            State(Some(p), [Writer([], true, Loaded(0, Some(p)))], None, Some(0), [Call(first, 0, Waiting, Some(0), [])], 1, [])
  {
    var s0 := Init(Some(p));
    hide IsRun, After, CarefulRun;
    run := EmptyRun(s0);
    run := Extend(s0, run, Get);
    run := Extend(s0, run, Apply(first, 0));
    run := Extend(s0, run, Check(0));
    run := Extend(s0, run, Enqueue(0));
    run := Extend(s0, run, Take(0));
    run := Extend(s0, run, Load(0));
    run := Extend(s0, run, StopAll);
    run := Extend(s0, run, StopSignal);
    assert After(s0, run).writers[0].queue == [];
    assert After(s0, run).writers == [Writer([], true, Loaded(0, Some(p)))];
    assert After(s0, run).calls == [Call(first, 0, Waiting, Some(0), [])];
  }

  /** A second consumer then loads the same plan for a second caller. */
  lemma LoadedTwice(p: Plan, first: Edit, second: Edit) returns (run: seq<Action>)
    ensures IsRun(Init(Some(p)), run)
    ensures After(Init(Some(p)), run) ==
            State(Some(p), [Writer([], true, Loaded(0, Some(p))), Writer([], false, Loaded(1, Some(p)))], Some(1), Some(0),
                  [Call(first, 0, Waiting, Some(0), []), Call(second, 1, Waiting, Some(1), [])], 2, [])
  {
    var s0 := Init(Some(p));
    hide IsRun, After;
    run := StoppedMidway(p, first);
    run := Extend(s0, run, Get);
    run := Extend(s0, run, Apply(second, 1));
    run := Extend(s0, run, Check(1));
    run := Extend(s0, run, Enqueue(1));
    run := Extend(s0, run, Take(1));
    run := Extend(s0, run, Load(1));
    assert After(s0, run).writers[1].queue == [];
    assert After(s0, run).writers == [Writer([], true, Loaded(0, Some(p))), Writer([], false, Loaded(1, Some(p)))];
    assert After(s0, run).calls == [Call(first, 0, Waiting, Some(0), []), Call(second, 1, Waiting, Some(1), [])];
  }

  /** With such a restart an update can be lost: both calls succeed, yet the disk shows
      only the first one's edit of the original plan. */
  lemma UpdateLostAcrossStopAll(p: Plan, first: Edit, second: Edit) returns (run: seq<Action>)
    requires Applicable(Some(p), first) && Applicable(Some(p), second)
    ensures IsRun(Init(Some(p)), run)
    ensures var s := After(Init(Some(p)), run);
            && s.disk.Some? && Edited(p, first, 0, s.disk.value)
            && |s.calls| == 2 && s.calls[0].edit == first && s.calls[1].edit == second
            && s.calls[0].reply == [Success] && s.calls[1].reply == [Success]
  {
    HandledExactly(Some(p), first, 0, true);
    HandledExactly(Some(p), second, 0, true);
    hide Handled, Applicable, Edited, IsRun, After;
    run := LoadedTwice(p, first, second);
    run := Extend(Init(Some(p)), run, Commit(1, 0, true));
    run := Extend(Init(Some(p)), run, Commit(0, 0, true));
  }

  // ----- When a call gets its reply -----

  /** The goroutine of writer w has left, and no StopAll is waiting to drain the queue. */
  predicate Gone(s: State, w: nat)
    requires w < |s.writers|
  {
    s.writers[w].pc == Exited && s.stopping != Some(w)
  }

  /** The goroutine has been told to stop, or has decided to. */
  predicate Retired(x: Writer) {
    x.pc == Draining || x.pc == Exited || (x.stopped && x.pc != Reclaiming)
  }

  /** A retired writer is not registered any more, and never will be. */
  ghost predicate Placed(s: State) {
    && (s.current.Some? ==> s.current.value < |s.writers| && !Retired(s.writers[s.current.value]))
    && (s.stopping.Some? ==> s.stopping.value < |s.writers| && s.stopping != s.current)
  }

  /** A call that waits without an answer is still in its writer's hands. */
  ghost predicate Kept(s: State) {
    forall c :: 0 <= c < |s.calls| && s.calls[c].pc == Waiting && s.calls[c].reply == [] ==>
      s.calls[c].writer < |s.writers| && c in Pending(s.writers[s.calls[c].writer])
  }

  ghost predicate Sound(s: State) {
    QueuesOk(s) && CallsOk(s) && Placed(s) && Kept(s)
  }

  lemma PlacedStep(s: State, a: Action)
    requires Placed(s) && Enabled(s, a)
    ensures Placed(Next(s, a))
  {
    hide Handled;
  }

  /** No call has started to wait for an answer. */
  ghost predicate NoneAsks(s: State, t: State) {
    && |s.calls| <= |t.calls|
    && forall c :: 0 <= c < |t.calls| && t.calls[c].pc == Waiting && t.calls[c].reply == [] ==>
         c < |s.calls| && s.calls[c].pc == Waiting && s.calls[c].reply == [] && t.calls[c].writer == s.calls[c].writer
  }

  lemma NoneAsksStep(s: State, a: Action)
    requires Enabled(s, a) && !a.Enqueue?
    ensures NoneAsks(s, Next(s, a))
  {
    hide Handled;
  }

  lemma KeptQuiet(s: State, t: State)
    requires Kept(s) && NoneAsks(s, t) && SamePending(s, t)
    ensures Kept(t)
  {
    hide Pending;
  }

  lemma KeptPop(s: State, t: State, w: nat, c: nat)
    requires Kept(s) && NoneAsks(s, t) && PopsFirst(s, t, w, c) && c < |t.calls| && t.calls[c].reply != []
    ensures Kept(t)
  {
    hide Pending;
  }

  lemma KeptEnqueue(s: State, c: nat)
    requires Kept(s) && Enabled(s, Enqueue(c))
    ensures Kept(Next(s, Enqueue(c)))
  {
    var t := Next(s, Enqueue(c));
    assert Pending(t.writers[s.calls[c].writer]) == Pending(s.writers[s.calls[c].writer]) + [c];
    hide Pending;
  }

  lemma KeptStep(s: State, a: Action)
    requires QueuesOk(s) && Kept(s) && Enabled(s, a)
    ensures Kept(Next(s, a))
  {
    var t := Next(s, a);
    hide QueuesOk, Kept, NoneAsks, PopsFirst, SamePending;
    if a.Enqueue? {
      KeptEnqueue(s, a.c);
    } else {
      NoneAsksStep(s, a);
      if Answering(a) {
        AnsweringPops(s, a);
        hide Next, Enabled;
        var w := if a.StopAllDrain? then s.stopping.value else a.w;
        KeptPop(s, t, w, Pending(s.writers[w])[0]);
      } else {
        PendingKept(s, a);
        hide Next, Enabled;
        KeptQuiet(s, t);
      }
    }
  }

  lemma SoundStep(s: State, a: Action)
    requires Sound(s) && Enabled(s, a)
    ensures Sound(Next(s, a))
  {
    hide QueuesOk, CallsOk, Placed, Kept;
    QueuesStep(s, a);
    CallsStep(s, a);
    PlacedStep(s, a);
    KeptStep(s, a);
  }

  lemma {:induction false} RunSound(init: Option<Plan>, run: seq<Action>)
    requires IsRun(Init(init), run)
    ensures Sound(After(Init(init), run))
    decreases |run|
  {
    if run != [] {
      hide Sound, Next, Enabled;
      RunSound(init, run[..|run| - 1]);
      SoundStep(After(Init(init), run[..|run| - 1]), run[|run| - 1]);
    }
  }

  // It comes as long as somebody is there to give it

  /** What brings the calls in the hands of writer w forward. */
  function Forward(s: State, w: nat): Action
    requires w < |s.writers|
  {
    match s.writers[w].pc
    case Select => Take(w)
    case Taken(_) => Load(w)
    case Loaded(_, _) => Commit(w, 0, true)
    case IdleFired => IdleLock(w)
    case Reclaiming => OnIdle(w)
    case Draining => Drain(w)
    case Exited => StopAllDrain
  }

  function Rank(pc: Pc): nat {
    match pc case Select => 2 case Taken(_) => 1 case IdleFired => 2 case Reclaiming => 1 case _ => 0
  }

  lemma ForwardEnabled(s: State, w: nat)
    requires w < |s.writers| && QueuesOk(s) && Pending(s.writers[w]) != [] && !Gone(s, w)
    ensures Enabled(s, Forward(s, w))
  {
    assert QueueOk(s, w) && IsPending(s, w, Pending(s.writers[w])[0]);
  }

  lemma ForwardRank(s: State, w: nat)
    requires w < |s.writers| && !Gone(s, w) && Enabled(s, Forward(s, w))
    ensures var a := Forward(s, w);
            var t := Next(s, a);
            && w < |t.writers| && |t.calls| == |s.calls|
            && (if a.StopAllDrain? then s.stopping == Some(w) else a.w == w)
            && (!Answering(a) ==> Quiet(a) && t.writers[w].pc != Exited && Rank(t.writers[w].pc) < Rank(s.writers[w].pc))
  {
    hide Handled;
  }

  lemma AnsweringStays(s: State, w: nat)
    requires w < |s.writers| && !Gone(s, w) && Enabled(s, Forward(s, w)) && Answering(Forward(s, w))
    ensures !Gone(Next(s, Forward(s, w)), w)
  {
    hide Handled;
  }

  /** Either the first call in hand is answered, or the writer has moved on with all of them. */
  lemma ForwardMoves(s: State, w: nat)
    requires w < |s.writers| && !Gone(s, w) && QueuesOk(s) && Enabled(s, Forward(s, w))
    ensures var a := Forward(s, w);
            var t := Next(s, a);
            && w < |t.writers| && !Gone(t, w) && |t.calls| == |s.calls|
            && if Answering(a) then
                 && Pending(s.writers[w]) != [] && Pending(s.writers[w])[0] < |t.calls|
                 && Pending(t.writers[w]) == Pending(s.writers[w])[1..] && t.calls[Pending(s.writers[w])[0]].reply != []
               else Pending(t.writers[w]) == Pending(s.writers[w]) && Rank(t.writers[w].pc) < Rank(s.writers[w].pc)
  {
    var a := Forward(s, w);
    ForwardRank(s, w);
    hide Forward, Next, Enabled, QueuesOk, Pending, Rank;
    if Answering(a) {
      AnsweringPops(s, a);
      AnsweringStays(s, w);
    } else {
      PendingKept(s, a);
    }
  }

  /** Call c is in the hands of writer w, who is not gone. */
  ghost predicate InHand(s: State, w: nat, c: nat) {
    w < |s.writers| && c in Pending(s.writers[w]) && !Gone(s, w) && QueuesOk(s) && CallsOk(s)
  }

  lemma ForwardStep(s: State, w: nat, c: nat)
    requires InHand(s, w, c)
    ensures Enabled(s, Forward(s, w))
    ensures var t := Next(s, Forward(s, w));
            c < |t.calls| &&
            (t.calls[c].reply != [] ||
             (InHand(t, w, c) && (|Pending(t.writers[w])| < |Pending(s.writers[w])| ||
                (|Pending(t.writers[w])| == |Pending(s.writers[w])| && Rank(t.writers[w].pc) < Rank(s.writers[w].pc)))))
  {
    HandIsPending(s, w, c);
    ForwardEnabled(s, w);
    ForwardMoves(s, w);
    QueuesStep(s, Forward(s, w));
    CallsStep(s, Forward(s, w));
    hide Forward, Next, Enabled, QueuesOk, CallsOk, Pending, Gone, IsPending;
  }

  lemma HandIsPending(s: State, w: nat, c: nat)
    requires InHand(s, w, c)
    ensures IsPending(s, w, c)
  {
    assert QueueOk(s, w);
    var i :| 0 <= i < |Pending(s.writers[w])| && Pending(s.writers[w])[i] == c;
  }

  /** A call in the hands of a writer that is not gone can be answered. */
  lemma {:induction false} CanAnswer(s: State, before: seq<Action>, w: nat, c: nat) returns (run: seq<Action>)
    requires IsRun(s, before) && InHand(After(s, before), w, c)
    ensures AnsweredIn(s, run, c)
    decreases |Pending(After(s, before).writers[w])|, Rank(After(s, before).writers[w].pc)
  {
    var t := After(s, before);
    ForwardStep(t, w, c);
    hide Forward, Next, Enabled, InHand, IsRun, After;
    run := Extend(s, before, Forward(t, w));
    if After(s, run).calls[c].reply == [] {
      run := CanAnswer(s, run, w, c);
    }
  }

  ghost predicate AnsweredIn(s: State, run: seq<Action>, c: nat) {
    IsRun(s, run) && c < |After(s, run).calls| && After(s, run).calls[c].reply != []
  }

  // And never comes otherwise

  /** In the queue of a writer that is gone for good. */
  ghost predicate Stranded(s: State, w: nat, c: nat) {
    && w < |s.writers| && Gone(s, w) && s.current != Some(w)
    && c in s.writers[w].queue && QueuesOk(s) && CallsOk(s)
  }

  lemma StrandedStays(s: State, a: Action, w: nat, c: nat)
    requires Stranded(s, w, c) && Enabled(s, a)
    ensures Stranded(Next(s, a), w, c)
  {
    QueuesStep(s, a);
    CallsStep(s, a);
    hide QueuesOk, CallsOk, Handled;
  }

  /** It stays there whatever happens, unanswered. */
  lemma {:induction false} StrandedForever(s: State, run: seq<Action>, w: nat, c: nat)
    requires Stranded(s, w, c) && IsRun(s, run)
    ensures Stranded(After(s, run), w, c) && IsPending(After(s, run), w, c)
    decreases |run|
  {
    if run == [] {
      StrandedUnanswered(s, w, c);
    } else {
      StrandedForever(s, run[..|run| - 1], w, c);
      hide Stranded, Next, Enabled;
      StrandedStays(After(s, run[..|run| - 1]), run[|run| - 1], w, c);
      StrandedUnanswered(After(s, run), w, c);
    }
  }

  lemma StrandedUnanswered(s: State, w: nat, c: nat)
    requires Stranded(s, w, c)
    ensures IsPending(s, w, c)
  {
    assert QueueOk(s, w);
    var i :| 0 <= i < |s.writers[w].queue| && s.writers[w].queue[i] == c;
    assert Pending(s.writers[w])[i] == c;
  }

  /** In every interleaving, a call that waits for its reply can still get it if and only if
      its writer's goroutine has not left or a StopAll is waiting for that goroutine. */
  lemma ReplyComesUnlessGone(init: Option<Plan>, run: seq<Action>, c: nat)
    requires IsRun(Init(init), run)
    requires var s := After(Init(init), run);
             c < |s.calls| && s.calls[c].pc == Waiting && s.calls[c].reply == []
    ensures var s := After(Init(init), run);
            s.calls[c].writer < |s.writers| &&
            ((exists more :: AnsweredIn(s, more, c)) <==> !Gone(s, s.calls[c].writer))
  {
    var s := After(Init(init), run);
    RunSound(init, run);
    var w := s.calls[c].writer;
    if !Gone(s, w) {
      var none := EmptyRun(s);
      hide IsRun, After;
      var more := CanAnswer(s, none, w, c);
    } else {
      assert Stranded(s, w, c);
      hide Stranded, IsRun, After;
      forall more | AnsweredIn(s, more, c) ensures false {
        StrandedForever(s, more, w, c);
      }
    }
  }

  /** So enqueueing is safe exactly while the goroutine has not left or StopAll still waits for it. */
  lemma EnqueueSafeUnlessGone(init: Option<Plan>, run: seq<Action>, c: nat)
    requires IsRun(Init(init), run) && Enabled(After(Init(init), run), Enqueue(c))
    ensures var s := After(Init(init), run);
            (exists more :: AnsweredIn(Next(s, Enqueue(c)), more, c)) <==> !Gone(s, s.calls[c].writer)
  {
    var s := After(Init(init), run);
    RunSound(init, run);
    assert CallOk(s, c);
    hide Sound, IsRun, After;
    var longer := Extend(Init(init), run, Enqueue(c));
    ReplyComesUnlessGone(init, longer, c);
  }

  /** The only consumer is about to reclaim itself while a caller has looked but not yet enqueued. */
  lemma IdleMidway(init: Option<Plan>, edit: Edit) returns (run: seq<Action>)
    ensures IsRun(Init(init), run) && CarefulRun(Init(init), run)
    ensures After(Init(init), run) ==
            State(init, [Writer([], false, IdleFired)], Some(0), None, [Call(edit, 0, Checked, None, [])], 0, [])
  {
    var s0 := Init(init);
    hide IsRun, After, CarefulRun;
    run := EmptyRun(s0);
    run := Extend(s0, run, Get);
    run := Extend(s0, run, Apply(edit, 0));
    run := Extend(s0, run, Check(0));
    run := Extend(s0, run, TimerFires(0));
    assert After(s0, run).writers == [Writer([], false, IdleFired)];
    assert After(s0, run).calls == [Call(edit, 0, Checked, None, [])];
  }

  lemma ReclaimedMidway(init: Option<Plan>, edit: Edit) returns (run: seq<Action>)
    ensures IsRun(Init(init), run) && CarefulRun(Init(init), run)
    ensures After(Init(init), run) ==
            State(init, [Writer([], true, Exited)], None, None, [Call(edit, 0, Checked, None, [])], 0, [])
  {
    var s0 := Init(init);
    run := IdleMidway(init, edit);
    hide IsRun, After, CarefulRun;
    run := Extend(s0, run, IdleLock(0));
    run := Extend(s0, run, OnIdle(0));
    run := Extend(s0, run, Exit(0));
    assert After(s0, run).writers == [Writer([], true, Exited)];
  }

  /** That caller enqueues after the last drain, and waits for ever. */
  lemma ApplyCanStrand(init: Option<Plan>, edit: Edit) returns (run: seq<Action>)
    ensures IsRun(Init(init), run) && CarefulRun(Init(init), run)
    ensures var s := After(Init(init), run);
            |s.calls| == 1 && s.calls[0].pc == Waiting && forall more :: !AnsweredIn(s, more, 0)
  {
    run := ReclaimedMidway(init, edit);
    hide IsRun, After, CarefulRun, AnsweredIn;
    EnqueueSafeUnlessGone(init, run, 0);
    run := Extend(Init(init), run, Enqueue(0));
  }
}

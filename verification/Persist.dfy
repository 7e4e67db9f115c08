/** The debounced persistence worker of a session as a machine of atomic steps:
    mutators, the one-slot dirty channel, the timer, explicit flushes and the worker
    loop (internal/engine/session/persist.go, internal/engine/session/session.go). */
module Persist {
  import opened Common

  /** Where the worker goroutine stands; ack is the flush call it is serving. */
  datatype Pc =
    | Select
    | Flushing(ack: Option<nat>)
    | Saving(snapshot: nat, ack: Option<nat>)
    | Exited

  datatype CallPc = Sending | Waiting | Acked | SawStop | GaveUp

  /** A call of Flush; at is the session version when it was made. */
  datatype FlushCall = FlushCall(at: nat, pc: CallPc)

  /** One write of a snapshot to the store, which may fail: the failure is logged and no more. */
  datatype Attempt = Attempt(snapshot: nat, ok: bool)

  /** The session's successive contents are numbered: version is the one in memory, stored
      the one in the store, attempts the writes so far, the content the session was opened
      with being the first. unnotified counts mutators that have changed the session and not
      yet sent their dirty signal. */
  datatype State = State(version: nat, stored: nat, attempts: seq<Attempt>, unnotified: nat, dirty: bool, armed: bool,
                         pc: Pc, queue: seq<nat>, calls: seq<FlushCall>, stopped: bool)

  datatype Action =
    | Mutate
    | Notify
    | TakeDirty
    | TimerFires
    | TakeFlush
    | Snapshot
    | Write(ok: bool)
    | LoopStops
    | CallFlush
    | SendFlush(f: nat)
    | SeeStop(f: nat)
    | GiveUp(f: nat)
    | CloseStop

  const FLUSH_QUEUE := 4

  function Init(v: nat): State {
    State(v, v, [Attempt(v, true)], 0, false, false, Select, [], [], false)
  }

  predicate Enabled(s: State, a: Action) {
    match a
    case Mutate => true
    case Notify => s.unnotified > 0
    case TakeDirty => s.pc == Select && s.dirty
    case TimerFires => s.pc == Select && s.armed
    case TakeFlush => s.pc == Select && s.queue != []
    case Snapshot => s.pc.Flushing?
    case Write(_) => s.pc.Saving?
    case LoopStops => s.pc == Select && s.stopped
    case CallFlush => true
    case SendFlush(f) => f < |s.calls| && s.calls[f].pc == Sending && |s.queue| < FLUSH_QUEUE
    case SeeStop(f) => f < |s.calls| && s.calls[f].pc == Sending && s.stopped
    case GiveUp(f) => f < |s.calls| && s.calls[f].pc == Waiting
    case CloseStop => !s.stopped
  }

  function SetCall(s: State, f: nat, pc: CallPc): State
    requires f < |s.calls|
  {
    s.(calls := s.calls[f := s.calls[f].(pc := pc)])
  }

  /** Closing the ack channel reaches the caller if it is still waiting. */
  function Acknowledge(s: State, ack: Option<nat>): State {
    if ack.Some? && ack.value < |s.calls| && s.calls[ack.value].pc == Waiting then SetCall(s, ack.value, Acked) else s
  }

  function Next(s: State, a: Action): State
    requires Enabled(s, a)
  {
    match a
    case Mutate => s.(version := s.version + 1, unnotified := s.unnotified + 1)
    case Notify => s.(unnotified := s.unnotified - 1, dirty := true)
    case TakeDirty => s.(dirty := false, armed := true)
    case TimerFires => s.(armed := false, pc := Flushing(None))
    case TakeFlush => s.(armed := false, queue := s.queue[1..], pc := Flushing(Some(s.queue[0])))
    case Snapshot => s.(pc := Saving(s.version, s.pc.ack))
    case Write(ok) =>
      var t := s.(stored := if ok then s.pc.snapshot else s.stored, pc := Select);
      Acknowledge(t.(attempts := s.attempts + [Attempt(s.pc.snapshot, ok)]), s.pc.ack)
    case LoopStops => s.(pc := Exited)
    case CallFlush => s.(calls := s.calls + [FlushCall(s.version, Sending)])
    case SendFlush(f) => SetCall(s, f, Waiting).(queue := s.queue + [f])
    case SeeStop(f) => SetCall(s, f, SawStop)
    case GiveUp(f) => SetCall(s, f, GaveUp)
    case CloseStop => s.(stopped := true)
  }

  // ----- What the store has -----

  /** The content of the last write, whether or not it succeeded. */
  function Attempted(s: State): int {
    if s.attempts == [] then -1 else s.attempts[|s.attempts| - 1].snapshot
  }

  /** The version whose write will have been attempted once the one under way is done. */
  function Secured(s: State): int {
    if s.pc.Saving? then s.pc.snapshot else Attempted(s)
  }

  /** Somebody will still have the present version written. */
  predicate Responsible(s: State) {
    s.dirty || s.armed || s.unnotified > 0 || s.pc.Flushing?
  }

  /** A successful write of some content from version v on. */
  ghost predicate Saved(s: State, v: nat) {
    exists k :: 0 <= k < |s.attempts| && s.attempts[k].ok && s.attempts[k].snapshot >= v
  }

  /** A write of some content from version v on, successful or not. */
  ghost predicate Tried(s: State, v: nat) {
    exists k :: 0 <= k < |s.attempts| && s.attempts[k].snapshot >= v
  }

  /** The store has the newest content that was written with success. */
  ghost predicate StoreOk(s: State) {
    && (forall k :: 0 <= k < |s.attempts| ==> s.attempts[k].snapshot <= Attempted(s))
    && (forall k :: 0 <= k < |s.attempts| && s.attempts[k].ok ==> s.attempts[k].snapshot <= s.stored)
    && (exists k :: 0 <= k < |s.attempts| && s.attempts[k] == Attempt(s.stored, true))
  }

  ghost predicate LagOk(s: State) {
    && s.stored <= Attempted(s) <= Secured(s) <= s.version
    && (s.pc != Exited && Secured(s) < s.version ==> Responsible(s))
  }

  /** An acknowledged flush was attempted. */
  ghost predicate FlushOk(s: State, x: FlushCall) {
    x.at <= s.version && (x.pc == Acked ==> x.at <= Attempted(s))
  }

  ghost predicate AcksOk(s: State) {
    && (forall q :: 0 <= q < |s.queue| ==> s.queue[q] < |s.calls|)
    && (s.pc.Flushing? && s.pc.ack.Some? ==> s.pc.ack.value < |s.calls|)
    && (s.pc.Saving? && s.pc.ack.Some? ==> s.pc.ack.value < |s.calls| && s.calls[s.pc.ack.value].at <= s.pc.snapshot)
  }

  ghost predicate Inv(s: State) {
    StoreOk(s) && LagOk(s) && AcksOk(s) && forall f :: 0 <= f < |s.calls| ==> FlushOk(s, s.calls[f])
  }

  lemma StoreStep(s: State, a: Action)
    requires StoreOk(s) && LagOk(s) && Enabled(s, a)
    ensures StoreOk(Next(s, a)) && s.stored <= Next(s, a).stored
  {
    var t := Next(s, a);
    var k :| 0 <= k < |s.attempts| && s.attempts[k] == Attempt(s.stored, true);
    assert t.attempts[k] == s.attempts[k];
    if a.Write? {
      assert t.attempts[|s.attempts|] == Attempt(s.pc.snapshot, a.ok);
    }
  }

  lemma FlushesStep(s: State, a: Action)
    requires Inv(s) && Enabled(s, a)
    ensures forall f :: 0 <= f < |Next(s, a).calls| ==> FlushOk(Next(s, a), Next(s, a).calls[f])
  {
    hide StoreOk;
  }

  /** Whoever was responsible hands the responsibility on, or a write takes it. */
  lemma LagStep(s: State, a: Action)
    requires LagOk(s) && Enabled(s, a)
    ensures LagOk(Next(s, a))
  {
  }

  lemma AckStep(s: State, a: Action)
    requires Inv(s) && Enabled(s, a)
    ensures AcksOk(Next(s, a))
  {
    hide StoreOk, LagOk;
  }

  lemma InvStep(s: State, a: Action)
    requires Inv(s) && Enabled(s, a)
    ensures Inv(Next(s, a)) && s.stored <= Next(s, a).stored
  {
    StoreStep(s, a);
    FlushesStep(s, a);
    LagStep(s, a);
    AckStep(s, a);
    hide FlushOk, Next, StoreOk, LagOk, AcksOk;
  }

  function After(s: State, run: seq<Action>): Option<State> {
    if run == [] then Some(s)
    else
      var front := After(s, run[..|run| - 1]);
      if front.Some? && Enabled(front.value, run[|run| - 1]) then Some(Next(front.value, run[|run| - 1])) else None
  }

  /** The invariant holds for ever, and the store never goes back. */
  lemma {:induction false} InvAfter(s: State, run: seq<Action>)
    requires Inv(s) && After(s, run).Some?
    ensures Inv(After(s, run).value) && s.stored <= After(s, run).value.stored
  {
    if run != [] {
      hide Inv, Next, Enabled;
      InvAfter(s, run[..|run| - 1]);
      InvStep(After(s, run[..|run| - 1]).value, run[|run| - 1]);
    }
  }

  lemma InvAlways(v: nat, run: seq<Action>)
    requires After(Init(v), run).Some?
    ensures Inv(After(Init(v), run).value)
  {
    assert Init(v).attempts[0] == Attempt(v, true);
    assert Inv(Init(v));
    hide Inv;
    InvAfter(Init(v), run);
  }

  /** Nothing is left to do. */
  predicate Quiescent(s: State) {
    s.pc == Select && !Responsible(s)
  }

  /** Whatever the store answers: whenever the last attempted write lags behind memory, a
      dirty token is queued, the timer is armed, a mutator has yet to notify, or a flush is
      under way. So at rest the last attempt was at the present version, and the store has it
      if and only if one of the attempts at it succeeded. */
  lemma NoLostUpdate(v: nat, run: seq<Action>)
    requires After(Init(v), run).Some?
    ensures var s := After(Init(v), run).value;
            && (Attempted(s) < s.version && s.pc != Exited ==> Responsible(s) || (s.pc.Saving? && s.pc.snapshot == s.version))
            && (Quiescent(s) ==> Attempted(s) == s.version)
            && (s.stored == s.version <==> Saved(s, s.version))
  {
    InvAlways(v, run);
    CoveredIff(After(Init(v), run).value, After(Init(v), run).value.version);
  }

  /** The store covers a version exactly when some write from that version on succeeded. */
  lemma CoveredIff(s: State, v: nat)
    requires StoreOk(s)
    ensures v <= s.stored <==> Saved(s, v)
  {
    var k :| 0 <= k < |s.attempts| && s.attempts[k] == Attempt(s.stored, true);
    if v <= s.stored {
      assert s.attempts[k].ok && s.attempts[k].snapshot >= v;
    }
  }

  /** A flush call that was acknowledged has had a write attempted that covers every mutation
      before the call. It is in the store, then and ever after, if and only if such a write
      succeeded: the acknowledgement itself does not tell. */
  lemma AckedFlushCovers(v: nat, run: seq<Action>, f: nat)
    requires After(Init(v), run).Some?
    requires f < |After(Init(v), run).value.calls| && After(Init(v), run).value.calls[f].pc == Acked
    ensures var s := After(Init(v), run).value;
            && Tried(s, s.calls[f].at)
            && (s.calls[f].at <= s.stored <==> Saved(s, s.calls[f].at))
            && (CoveredForGood(s, s.calls[f].at) <==> Saved(s, s.calls[f].at))
  {
    InvAlways(v, run);
    var s := After(Init(v), run).value;
    hide After;
    AckedWasTried(s, f);
    CoveredIff(s, s.calls[f].at);
    hide StoreOk, LagOk, AcksOk;
    CoveredStays(s, s.calls[f].at);
  }

  lemma AckedWasTried(s: State, f: nat)
    requires Inv(s) && f < |s.calls| && s.calls[f].pc == Acked
    ensures Tried(s, s.calls[f].at)
  {
    assert FlushOk(s, s.calls[f]);
    assert s.attempts[|s.attempts| - 1].snapshot >= s.calls[f].at;
  }

  lemma CoveredStays(s: State, v: nat)
    requires Inv(s)
    ensures CoveredForGood(s, v) <==> v <= s.stored
  {
    var none := Start(s);
    assert CoveredForGood(s, v) ==> v <= After(s, none).value.stored;
    hide Inv, After;
    forall more: seq<Action> | After(s, more).Some? ensures s.stored <= After(s, more).value.stored {
      InvAfter(s, more);
    }
  }

  /** However things go on, the store has content from version v on. */
  ghost predicate CoveredForGood(s: State, v: nat) {
    forall more: seq<Action> :: After(s, more).Some? ==> v <= After(s, more).value.stored
  }

  /** When all writes succeed, the store is current at rest and every acknowledged flush is covered. */
  lemma SuccessfulWritesSuffice(v: nat, run: seq<Action>)
    requires After(Init(v), run).Some?
    requires var s := After(Init(v), run).value; forall k :: 0 <= k < |s.attempts| ==> s.attempts[k].ok
    ensures var s := After(Init(v), run).value;
            && (Quiescent(s) ==> s.stored == s.version)
            && forall f :: 0 <= f < |s.calls| && s.calls[f].pc == Acked ==> s.calls[f].at <= s.stored
  {
    InvAlways(v, run);
    var s := After(Init(v), run).value;
    assert s.attempts[|s.attempts| - 1].ok;
    forall f | 0 <= f < |s.calls| && s.calls[f].pc == Acked ensures s.calls[f].at <= s.stored {
      assert FlushOk(s, s.calls[f]);
    }
  }

  // ----- Failed writes are retried only on demand -----

  lemma Start(s: State) returns (run: seq<Action>)
    ensures After(s, run) == Some(s) && Undisturbed(run)
  {
    run := [];
  }

  lemma Extend(s: State, run: seq<Action>, a: Action) returns (longer: seq<Action>)
    requires After(s, run).Some? && Enabled(After(s, run).value, a)
    ensures After(s, longer) == Some(Next(After(s, run).value, a))
    ensures Undisturbed(run) && Unprompted(a) ==> Undisturbed(longer)
  {
    longer := run + [a];
    assert longer[..|longer| - 1] == run;
  }

  /** Neither a further change nor a flush call. */
  predicate Unprompted(a: Action) {
    !a.Mutate? && !a.SendFlush?
  }

  ghost predicate Undisturbed(run: seq<Action>) {
    forall k :: 0 <= k < |run| ==> Unprompted(run[k])
  }

  /** n of the pending mutators send their signal. */
  lemma {:induction false} NotifyMany(s: State, n: nat) returns (run: seq<Action>)
    requires n <= s.unnotified
    ensures After(s, run) == Some(s.(unnotified := s.unnotified - n, dirty := s.dirty || n > 0))
    ensures Undisturbed(run)
    decreases n
  {
    if n == 0 {
      run := Start(s);
    } else {
      hide After;
      run := NotifyMany(s, n - 1);
      run := Extend(s, run, Notify);
    }
  }

  /** The timer fires and the write succeeds. */
  lemma TimedWrite(s: State, t: State, before: seq<Action>) returns (run: seq<Action>)
    requires After(s, before) == Some(t) && t.pc == Select && t.armed && Undisturbed(before)
    ensures After(s, run) == Some(t.(armed := false, stored := t.version, attempts := t.attempts + [Attempt(t.version, true)]))
    ensures Undisturbed(run)
  {
    hide After;
    run := Extend(s, before, TimerFires);
    run := Extend(s, run, Snapshot);
    run := Extend(s, run, Write(true));
  }

  /** From any state in which the worker waits it can come to rest by itself, and if
      somebody was responsible, with everything stored. */
  lemma CanSettle(s: State) returns (run: seq<Action>)
    requires s.pc == Select
    ensures After(s, run).Some? && Undisturbed(run)
    ensures var t := After(s, run).value;
            Quiescent(t) && t.version == s.version && (if Responsible(s) then t.stored == t.version else t == s)
  {
    hide After;
    run := NotifyMany(s, s.unnotified);
    if After(s, run).value.dirty {
      run := Extend(s, run, TakeDirty);
    }
    if After(s, run).value.armed {
      run := TimedWrite(s, After(s, run).value, run);
    }
  }

  lemma FlushedWrite(s: State) returns (run: seq<Action>)
    requires s.pc == Select && s.queue != []
    ensures After(s, run).Some? && After(s, run).value.stored == After(s, run).value.version && Undisturbed(run)
  {
    run := Start(s);
    hide After;
    run := Extend(s, run, TakeFlush);
    run := Extend(s, run, Snapshot);
    run := Extend(s, run, Write(true));
  }

  /** Nothing but a change or a flush call will make the worker write again. */
  ghost predicate Resting(s: State, t: State) {
    && t.stored == s.stored && t.version == s.version
    && !Responsible(t) && !t.pc.Saving? && t.queue == []
  }

  lemma {:induction false} RestsOn(s: State, run: seq<Action>)
    requires Resting(s, s) && After(s, run).Some? && Undisturbed(run)
    ensures Resting(s, After(s, run).value)
  {
    if run != [] {
      RestsOn(s, run[..|run| - 1]);
      assert Unprompted(run[|run| - 1]);
    }
  }

  ghost predicate CatchesUp(s: State, run: seq<Action>) {
    && Undisturbed(run)
    && After(s, run).Some? && After(s, run).value.stored == After(s, run).value.version
  }

  /** A version whose write failed is written again if and only if somebody asks: without a
      further change or flush call, a waiting worker can bring the store up to date exactly
      when it is up to date already or a signal, a timer or a queued flush is pending. */
  lemma RetriedExactlyOnDemand(s: State)
    requires s.pc == Select
    ensures (exists run :: CatchesUp(s, run)) <==> s.stored == s.version || Responsible(s) || s.queue != []
  {
    if s.stored == s.version {
      var run := Start(s);
      assert CatchesUp(s, run);
    } else if Responsible(s) {
      var run := CanSettle(s);
      assert CatchesUp(s, run);
    } else if s.queue != [] {
      var run := FlushedWrite(s);
      assert CatchesUp(s, run);
    } else {
      hide After, Undisturbed;
      forall run | CatchesUp(s, run) ensures false {
        RestsOn(s, run);
      }
    }
  }

  /** A session whose content was flushed, acknowledged and yet not stored. */
  lemma AckedButNotStored(v: nat) returns (run: seq<Action>)
    ensures After(Init(v), run).Some?
    ensures var s := After(Init(v), run).value;
            && |s.calls| == 1 && s.calls[0] == FlushCall(v + 1, Acked)
            && s.stored == v && s.version == v + 1 && Quiescent(s) && s.queue == []
  {
    var s := Init(v);
    run := Start(s);
    hide After;
    run := Extend(s, run, Mutate);
    run := Extend(s, run, Notify);
    run := Extend(s, run, TakeDirty);
    run := Extend(s, run, CallFlush);
    run := Extend(s, run, SendFlush(0));
    run := Extend(s, run, TakeFlush);
    run := Extend(s, run, Snapshot);
    run := Extend(s, run, Write(false));
  }

  // ----- Stopping -----

  lemma {:induction false} ExitIsFinal(s: State, run: seq<Action>)
    requires s.pc == Exited && After(s, run).Some?
    ensures var t := After(s, run).value;
            t.pc == Exited && t.stored == s.stored && t.attempts == s.attempts && s.version <= t.version
  {
    if run != [] {
      ExitIsFinal(s, run[..|run| - 1]);
    }
  }

  /** Once the loop has left, the store stays as it is. What it lacks for good is what no
      successful write carried; whatever preceded an acknowledged flush of which a write
      succeeded is there, so Stop loses only changes made after its own flush call, or that
      flush itself when its write failed or it gave up. */
  lemma StopLoses(v: nat, run: seq<Action>, more: seq<Action>, f: nat)
    requires After(Init(v), run).Some? && After(Init(v), run).value.pc == Exited
    requires After(After(Init(v), run).value, more).Some?
    requires f < |After(Init(v), run).value.calls|
    ensures var s := After(Init(v), run).value;
            var t := After(s, more).value;
            && t.stored == s.stored
            && (t.stored == t.version <==> Saved(s, t.version))
            && (s.calls[f].at <= t.stored <==> Saved(s, s.calls[f].at))
            && (Saved(s, s.calls[f].at) && t.stored < t.version ==> s.calls[f].at < t.version)
  {
    InvAlways(v, run);
    var s := After(Init(v), run).value;
    var t := After(s, more).value;
    hide After;
    ExitIsFinal(s, more);
    CoveredIff(s, s.calls[f].at);
    CoveredIff(s, t.version);
  }

  /** A change between the acknowledgement of Stop's flush and the end of the loop is lost. */
  lemma StopLosesLateChange(v: nat) returns (run: seq<Action>)
    ensures After(Init(v), run).Some?
    ensures var s := After(Init(v), run).value;
            && s.pc == Exited && |s.calls| == 1 && s.calls[0] == FlushCall(v, Acked)
            && s.stored == v && s.version == v + 1
  {
    var s := Init(v);
    run := Start(s);
    hide After;
    run := Extend(s, run, CallFlush);
    run := Extend(s, run, SendFlush(0));
    run := Extend(s, run, TakeFlush);
    run := Extend(s, run, Snapshot);
    run := Extend(s, run, Write(true));
    run := Extend(s, run, Mutate);
    run := Extend(s, run, Notify);
    run := Extend(s, run, CloseStop);
    run := Extend(s, run, LoopStops);
  }
}

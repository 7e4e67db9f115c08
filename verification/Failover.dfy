/** The failover dispatcher (internal/provider/failover): priority routing over
    a chain of providers with per-provider health, and the streams it hands out. */
module FailoverDispatch {
  import opened Common
  import opened Cooldown
  import opened Routing

  /** The dispatcher: everything but the health records is fixed when it is built. */
  class Failover<P> {
    const providers: seq<P>
    const names: seq<string>
    const disabled: seq<bool>
    const policy: Policy
    const state: seq<ProviderState>

    ghost predicate Valid() {
      && 0 < |providers| == |names| == |disabled| == |state|
      && Distinct(state)
      && (forall i :: 0 <= i < |state| ==> state[i].policy == policy)
    }

    function Healths(): (h: seq<Health>)
      reads state
      ensures |h| == |state|
    {
      seq(|state|, i requires 0 <= i < |state| reads state => state[i].View())
    }

    /** Defaults apply to a non-positive base, maximum or factor, to missing
        names and to missing disabled flags. */
    constructor (providers: seq<P>, names: seq<string>, disabled: seq<bool>, base: int, max: int, factor: int)
      requires providers != []
      ensures Valid() && fresh(state)
      ensures this.providers == providers
      ensures |names| == |providers| && "" !in names ==> this.names == names
      ensures |disabled| == |providers| ==> this.disabled == disabled
      ensures forall i :: |disabled| <= i < |providers| ==> !this.disabled[i]
      ensures forall h :: h in Healths() ==> h == FRESH
    {
      var p := Policy(if base > 0 then base else 30_000_000_000,
                      if max > 0 then max else 600_000_000_000,
                      if factor > 0 then factor else 2);
      this.providers := providers;
      policy := p;
      this.names := seq(|providers|, i requires 0 <= i =>
        if i < |names| && names[i] != "" then names[i] else "chain[" + Digits(i) + "]");
      this.disabled := seq(|providers|, i requires 0 <= i => i < |disabled| && disabled[i]);
      var st: seq<ProviderState> := [];
      while |st| < |providers|
        invariant |st| <= |providers|
        invariant fresh(st) && Distinct(st)
        invariant forall i :: 0 <= i < |st| ==> st[i].policy == p && st[i].View() == FRESH
      {
        var s := new ProviderState(p);
        st := st + [s];
      }
      state := st;
    }

    method RecordSuccess(idx: nat)
      requires Valid() && idx < |state|
      modifies state
      ensures Healths() == ApplyEvent(policy, old(Healths()), Success(idx))
    {
      state[idx].Recover();
    }

    method RecordFailure(idx: nat, now: int)
      requires Valid() && idx < |state|
      modifies state
      ensures Healths() == ApplyEvent(policy, old(Healths()), Failure(idx, now))
    {
      state[idx].Trip(now);
    }

    /** The other calls and streams: any sequence of health events. */
    method Interfere(events: seq<Event>)
      requires Valid() && InRange(events, |state|)
      modifies state
      ensures Healths() == ApplyAll(policy, old(Healths()), events)
    {
      for i := 0 to |events|
        invariant Healths() == ApplyAll(policy, old(Healths()), events[..i])
      {
        assert events[i] in events;
        assert events[..i + 1][..i] == events[..i];
        match events[i] {
          case Success(idx) => RecordSuccess(idx);
          case Failure(idx, now) => RecordFailure(idx, now);
        }
      }
      assert events[..|events|] == events;
    }

    method PickNext(tried: set<nat>, now: int) returns (p: Pick)
      requires Valid()
      ensures IsPick(Healths(), disabled, tried, now, p)
    {
      var h := Healths();
      var healthyTotal := CountHealthy(tried);
      for i := 0 to |state|
        invariant forall j :: j < i ==> !Eligible(h, disabled, tried, now, j)
      {
        if i in tried || disabled[i] {
          continue;
        }
        if Healthy(h[i]) {
          OnlyHealthy(h, disabled, tried, |h|, i);
          if healthyTotal == 1 {
            return Picked(i, Medium, false);
          }
          return Picked(i, Fast, false);
        }
        if ShouldProbe(h[i], now) {
          return Picked(i, Probe, true);
        }
      }
      hide Healthy, ShouldProbe;
      var best := PickEarliest(tried);
      if best >= 0 {
        return Picked(best, Medium, false);
      }
      return NoPick;
    }

    /** How many untried, enabled providers are healthy. */
    method CountHealthy(tried: set<nat>) returns (n: nat)
      requires Valid()
      ensures n == HealthyCount(Healths(), disabled, tried, |state|)
    {
      n := 0;
      for i := 0 to |state|
        invariant n == HealthyCount(Healths(), disabled, tried, i)
      {
        if !(i in tried || disabled[i]) && Healthy(Healths()[i]) {
          n := n + 1;
        }
      }
    }

    /** The available provider whose cooldown ends first, or -1. */
    method PickEarliest(tried: set<nat>) returns (best: int)
      requires Valid()
      ensures best < 0 ==> forall j :: !Available(disabled, tried, j)
      ensures best >= 0 ==> Available(disabled, tried, best) && forall j :: Available(disabled, tried, j) ==>
                Expiry(Healths()[best]) <= Expiry(Healths()[j]) && (j < best ==> Expiry(Healths()[best]) < Expiry(Healths()[j]))
    {
      var h := Healths();
      best := -1;
      for i := 0 to |state|
        invariant -1 <= best < i
        invariant best == -1 ==> forall j :: j < i ==> !Available(disabled, tried, j)
        invariant best >= 0 ==> Available(disabled, tried, best)
        invariant best >= 0 ==> forall j :: j < i && Available(disabled, tried, j) ==>
          Expiry(h[best]) <= Expiry(h[j]) && (j < best ==> Expiry(h[best]) < Expiry(h[j]))
      {
        if i in tried || disabled[i] {
          continue;
        }
        if best < 0 || Expiry(h[i]) < Expiry(h[best]) {
          best := i;
        }
      }
    }

    /** One round up to the provider's answer: the pick, and what other calls do
        to health before it and while the provider is running. */
    method TryNext(env: nat -> Surroundings, attempts: seq<Attempt>, ghost h0: seq<Health>)
      returns (p: Pick, attempts': seq<Attempt>)
      requires Valid() && |h0| == |disabled|
      requires var around := env(|attempts|); InRange(around.before, |state|) && InRange(around.during, |state|)
      requires Routed(policy, disabled, h0, env, attempts)
      requires Healths() == ApplyAll(policy, h0, Log(env, attempts))
      modifies state
      ensures var around := env(|attempts|);
              var l := Log(env, attempts) + around.before;
              IsPick(ApplyAll(policy, h0, l), disabled, TriedBy(attempts), around.pickNow, p) &&
              match p
              case NoPick => attempts' == attempts && Healths() == ApplyAll(policy, h0, l)
              case Picked(i, budget, probing) =>
                && i < |state|
                && attempts' == attempts + [Attempt(i, budget, probing, ApplyAll(policy, h0, l), around.reply)]
                && Routed(policy, disabled, h0, env, attempts')
                && Healths() == ApplyAll(policy, h0, l + around.during)
    {
      var around := env(|attempts|);
      Interfere(around.before);
      ApplyAllAppend(policy, h0, Log(env, attempts), around.before);
      var seen := Healths();
      var tried := TriedBy(attempts);
      p := PickNext(tried, around.pickNow);
      attempts' := attempts;
      if p.Picked? {
        Interfere(around.during);
        ApplyAllAppend(policy, h0, Log(env, attempts) + around.before, around.during);
        attempts' := attempts + [Attempt(p.idx, p.budget, p.probing, seen, around.reply)];
        ExtendRun(policy, disabled, h0, env, attempts, attempts');
      }
    }

    method Chat(env: nat -> Surroundings) returns (r: ChatResult, attempts: seq<Attempt>)
      requires Valid()
      requires forall k: nat :: InRange(env(k).before, |state|) && InRange(env(k).during, |state|)
      modifies state
      ensures ChatRun(policy, disabled, old(Healths()), env, attempts, r)
      ensures Healths() == ApplyAll(policy, old(Healths()), FullLog(env, attempts, |providers|, r))
    {
      var lastErr: Option<Err> := None;
      attempts := [];
      ghost var h0 := Healths();
      while |attempts| < |providers|
        invariant |attempts| <= |providers|
        invariant Routed(policy, disabled, h0, env, attempts)
        invariant AllWorthy(attempts) && lastErr == LastError(attempts)
        invariant Healths() == ApplyAll(policy, h0, Log(env, attempts))
      {
        ghost var before := attempts;
        var p, answer;
        p, attempts := TryNext(env, attempts, h0);
        if p.NoPick? {
          r := AllDown(lastErr);
          return;
        }
        hide Routed, AllWorthy, IsPick, ApplyAll, Log;
        answer, lastErr := HandleReply(env, before, attempts, h0);
        if answer.Some? {
          return answer.value, attempts;
        }
      }
      r := AllDown(lastErr);
    }

    /** What an attempt's reply leads to: the call's result, or the next round with
        the failure on record. */
    method HandleReply(env: nat -> Surroundings, ghost before: seq<Attempt>, attempts: seq<Attempt>, ghost h0: seq<Health>)
      returns (answer: Option<ChatResult>, lastErr: Option<Err>)
      requires Valid() && |h0| == |disabled| && |attempts| == |before| + 1 <= |disabled| && attempts[..|before|] == before
      requires attempts[|before|].idx < |state| && attempts[|before|].reply == env(|before|).reply
      requires Routed(policy, disabled, h0, env, attempts) && AllWorthy(before)
      requires Healths() == ApplyAll(policy, h0, Log(env, before) + env(|before|).before + env(|before|).during)
      modifies state
      ensures Healths() == ApplyAll(policy, h0, Log(env, attempts))
      ensures answer.Some? ==> !answer.value.AllDown? && ChatRun(policy, disabled, h0, env, attempts, answer.value)
      ensures answer.None? ==> AllWorthy(attempts) && lastErr == LastError(attempts)
    {
      hide Routed, ApplyAll, Log, FailoverWorthy;
      var a := attempts[|attempts| - 1];
      lastErr := None;
      match a.reply {
        case SyncOk =>
          answer := Some(Streaming(a.idx));
          NoOwnEvent(env, before, attempts);
          EndsAfter(policy, disabled, h0, env, before, attempts, answer.value);
        case SyncErr(e) =>
          if !FailoverWorthy(e) {
            answer := Some(Bubbled(e));
            NoOwnEvent(env, before, attempts);
            EndsAfter(policy, disabled, h0, env, before, attempts, answer.value);
          } else {
            answer, lastErr := None, Some(e);
            OwnEvent(policy, h0, env, before, attempts);
            RecordFailure(a.idx, env(|attempts| - 1).failNow);
          }
      }
    }
  }

  class WrappedStream<P> {
    const idx: nat
    var fired: bool

    constructor (idx: nat)
      ensures this.idx == idx && !fired
    {
      this.idx := idx;
      fired := false;
    }

    /** Err of the wrapped stream: the inner result, and the health callback on
        the first call only. */
    method Err(f: Failover<P>, terminal: Option<Err>, now: int) returns (r: Option<Err>)
      requires f.Valid() && idx < |f.state|
      modifies this, f.state
      ensures r == terminal && fired
      ensures f.Healths() == ApplyAll(f.policy, old(f.Healths()),
                                      if old(fired) then [] else TapEvents(idx, terminal, now))
    {
      if !fired {
        fired := true;
        match terminal {
          case None =>
            f.RecordSuccess(idx);
          case Some(e) =>
            if FailoverWorthy(e) {
              f.RecordFailure(idx, now);
            }
        }
      }
      return terminal;
    }

    /** Any number of Err calls: together they report what the log of the calls says. */
    method ErrRepeatedly(f: Failover<P>, calls: seq<(Option<Err>, int)>)
      requires f.Valid() && idx < |f.state|
      modifies this, f.state
      ensures fired == (old(fired) || calls != [])
      ensures f.Healths() == ApplyAll(f.policy, old(f.Healths()), StreamLog(idx, old(fired), calls))
    {
      for i := 0 to |calls|
        invariant fired == (old(fired) || i > 0)
        invariant f.Healths() == ApplyAll(f.policy, old(f.Healths()), StreamLog(idx, old(fired), calls[..i]))
      {
        ghost var events := if fired then [] else TapEvents(idx, calls[i].0, calls[i].1);
        StreamLogAppend(idx, old(fired), calls[..i], calls[i]);
        ApplyAllAppend(f.policy, old(f.Healths()), StreamLog(idx, old(fired), calls[..i]), events);
        assert calls[..i + 1] == calls[..i] + [calls[i]];
        var r := Err(f, calls[i].0, calls[i].1);
      }
      assert calls[..|calls|] == calls;
    }
  }
}

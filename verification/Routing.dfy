/** What a call of the failover dispatcher must do (internal/provider/failover):
    which errors are worth failing over, how health events act on the records, the
    routing rule, and what every complete call guarantees.

    Concurrent calls and streams reach a call only through the health records,
    which are read and written under one mutex. A call is therefore run against
    an environment that applies arbitrary health events between its own atomic
    steps and supplies the clock and the provider replies. */
module Routing {
  import opened Common
  import opened Cooldown

  // ----- Error classification (classifier.go) -----

  datatype ApiType =
    | PromptTooLong | MaxOutputTokens | Overloaded | RateLimit | ServerError
    | NetworkError | AuthFailed | TokenRevoked | Unknown | Unlisted

  /** One layer of a wrapped Go error; an error is its chain, outermost first. */
  datatype Layer = Canceled | DeadlineExceeded | FallbackTriggered | Api(kind: ApiType) | Other

  type Err = seq<Layer>

  /** What errors.As finds: the outermost API error of the chain. */
  function FirstApi(err: Err): Option<ApiType> {
    if err == [] then None
    else if err[0].Api? then Some(err[0].kind)
    else FirstApi(err[1..])
  }

  predicate FailoverWorthy(err: Err) {
    if Canceled in err || DeadlineExceeded in err then false
    else if FallbackTriggered in err then true
    else match FirstApi(err)
      case Some(kind) => !(kind.PromptTooLong? || kind.MaxOutputTokens? || kind.Unlisted?)
      case None => false
  }

  /** The outermost API error of a chain is its i-th layer. */
  predicate OutermostApi(err: Err, i: nat, kind: ApiType) {
    i < |err| && err[i] == Api(kind) && forall j :: 0 <= j < i ==> !err[j].Api?
  }

  lemma {:induction false} FirstApiReads(err: Err)
    ensures FirstApi(err).Some? ==> exists i: nat :: OutermostApi(err, i, FirstApi(err).value)
    ensures FirstApi(err).None? ==> forall i :: 0 <= i < |err| ==> !err[i].Api?
  {
    if err != [] {
      FirstApiReads(err[1..]);
      if err[0].Api? {
        assert OutermostApi(err, 0, err[0].kind);
      } else if FirstApi(err).Some? {
        var i: nat :| OutermostApi(err[1..], i, FirstApi(err).value);
        assert OutermostApi(err, i + 1, FirstApi(err).value);
      }
    }
  }

  /** An error is worth failing over exactly when no layer of it is a cancellation or an
      expired deadline, and it has a layer that says the retries are used up, or its
      outermost API error is one of the seven that another provider may not have. */
  lemma WorthyExactly(err: Err)
    ensures FailoverWorthy(err) <==>
              && (forall j :: 0 <= j < |err| ==> err[j] != Canceled && err[j] != DeadlineExceeded)
              && ((exists j :: 0 <= j < |err| && err[j] == FallbackTriggered) ||
                  exists i: nat, kind :: OutermostApi(err, i, kind) &&
                    kind in {Overloaded, RateLimit, ServerError, NetworkError, AuthFailed, TokenRevoked, ApiType.Unknown})
  {
    FirstApiReads(err);
    if FirstApi(err).Some? {
      var i: nat :| OutermostApi(err, i, FirstApi(err).value);
      forall j: nat, kind | OutermostApi(err, j, kind) ensures kind == FirstApi(err).value {
      }
    }
    assert Canceled in err <==> exists j :: 0 <= j < |err| && err[j] == Canceled;
    hide FirstApi;
  }

  // ----- Health events -----

  datatype Event = Success(idx: nat) | Failure(idx: nat, now: int)

  function ApplyEvent(p: Policy, h: seq<Health>, e: Event): (h': seq<Health>)
    ensures |h'| == |h|
  {
    if e.idx >= |h| then h
    else match e
      case Success(i) => h[i := FRESH]
      case Failure(i, now) => h[i := Tripped(p, h[i], now)]
  }

  /** A success makes the one record fresh, a failure trips it, and no other record changes. */
  lemma EventReads(p: Policy, h: seq<Health>, e: Event)
    ensures var after := ApplyEvent(p, h, e);
            && (forall i :: 0 <= i < |h| && i != e.idx ==> after[i] == h[i])
            && (e.idx < |h| && e.Success? ==> after[e.idx] == Health(0, 0, None))
            && (e.idx < |h| && e.Failure? ==>
                  && after[e.idx].fails == h[e.idx].fails + 1
                  && after[e.idx].until == Some(e.now + after[e.idx].cooldown))
  {
  }

  function ApplyAll(p: Policy, h: seq<Health>, es: seq<Event>): (h': seq<Health>)
    ensures |h'| == |h|
  {
    if es == [] then h else ApplyEvent(p, ApplyAll(p, h, es[..|es| - 1]), es[|es| - 1])
  }

  lemma {:induction false} ApplyAllAppend(p: Policy, h: seq<Health>, xs: seq<Event>, ys: seq<Event>)
    ensures ApplyAll(p, h, xs + ys) == ApplyAll(p, ApplyAll(p, h, xs), ys)
    decreases |ys|
  {
    if ys == [] {
      assert xs + ys == xs;
    } else {
      var front := ys[..|ys| - 1];
      ApplyAllAppend(p, h, xs, front);
      assert (xs + ys)[..|xs + ys| - 1] == xs + front;
    }
  }

  predicate InRange(es: seq<Event>, n: nat) {
    forall e :: e in es ==> e.idx < n
  }

  // ----- Routing -----

  datatype Budget = Fast | Medium | Probe

  datatype Pick = NoPick | Picked(idx: nat, budget: Budget, probing: bool)

  predicate Available(disabled: seq<bool>, tried: set<nat>, i: int) {
    0 <= i < |disabled| && i !in tried && !disabled[i]
  }

  predicate Eligible(h: seq<Health>, disabled: seq<bool>, tried: set<nat>, now: int, i: int)
    requires |h| == |disabled|
  {
    Available(disabled, tried, i) && (Healthy(h[i]) || ShouldProbe(h[i], now))
  }

  /** How many of the first n providers are untried, enabled and healthy. */
  function HealthyCount(h: seq<Health>, disabled: seq<bool>, tried: set<nat>, n: nat): nat
    requires n <= |h| == |disabled|
  {
    if n == 0 then 0
    else HealthyCount(h, disabled, tried, n - 1) + if Available(disabled, tried, n - 1) && Healthy(h[n - 1]) then 1 else 0
  }

  /** When the cooldown of a tripped record ends. */
  function Expiry(h: Health): int {
    if h.until.Some? then h.until.value else 0
  }

  /** The routing rule, stated outright: the lowest-index untried enabled entry
      that is healthy or past its cooldown, else the earliest-expiring one. */
  ghost predicate IsPick(h: seq<Health>, disabled: seq<bool>, tried: set<nat>, now: int, p: Pick)
    requires |h| == |disabled|
  {
    match p
    case NoPick => forall i :: !Available(disabled, tried, i)
    case Picked(idx, budget, probing) =>
      && Available(disabled, tried, idx)
      && if Eligible(h, disabled, tried, now, idx) then
           && (forall i :: i < idx ==> !Eligible(h, disabled, tried, now, i))
           && probing == !Healthy(h[idx])
           && budget == (if probing then Probe
                         else if forall j :: Available(disabled, tried, j) && Healthy(h[j]) ==> j == idx then Medium
                         else Fast)
         else
           && (forall i :: !Eligible(h, disabled, tried, now, i))
           && budget == Medium && !probing
           && (forall i :: Available(disabled, tried, i) ==>
                 Expiry(h[idx]) <= Expiry(h[i]) &&
                 (i < idx ==> Expiry(h[idx]) < Expiry(h[i])))
  }

  // ----- A call of Chat -----

  /** The synchronous outcome of one provider call. */
  datatype Reply = SyncOk | SyncErr(err: Err)

  /** What surrounds the k-th attempt of a call: events of other calls before the
      pick and during the provider call, the clock, and the provider's reply. */
  datatype Surroundings = Surroundings(before: seq<Event>, pickNow: int, reply: Reply,
                                       during: seq<Event>, failNow: int)

  datatype Attempt = Attempt(idx: nat, budget: Budget, probing: bool, seen: seq<Health>, reply: Reply)

  datatype ChatResult = Streaming(idx: nat) | Bubbled(err: Err) | AllDown(last: Option<Err>)

  predicate WorthyFailure(r: Reply) {
    r.SyncErr? && FailoverWorthy(r.err)
  }

  function TriedBy(attempts: seq<Attempt>): set<nat> {
    set a | a in attempts :: a.idx
  }

  /** The health events of the attempts: other calls' events, and one trip of
      the called provider exactly when its error is worth failing over. */
  function Log(env: nat -> Surroundings, attempts: seq<Attempt>): seq<Event> {
    if attempts == [] then []
    else
      var k := |attempts| - 1;
      var a := attempts[k];
      Log(env, attempts[..k]) + env(k).before + env(k).during
      + (if WorthyFailure(a.reply) then [Failure(a.idx, env(k).failNow)] else [])
  }

  /** Everything logged by a finished call: an empty last pick has seen the
      events before it. */
  function FullLog(env: nat -> Surroundings, attempts: seq<Attempt>, n: nat, r: ChatResult): seq<Event> {
    if r.AllDown? && |attempts| < n then Log(env, attempts) + env(|attempts|).before else Log(env, attempts)
  }

  ghost predicate AttemptOk(p: Policy, disabled: seq<bool>, h0: seq<Health>, env: nat -> Surroundings,
                            attempts: seq<Attempt>, k: nat)
    requires |h0| == |disabled| && k < |attempts|
  {
    var a := attempts[k];
    && a.seen == ApplyAll(p, h0, Log(env, attempts[..k]) + env(k).before)
    && IsPick(a.seen, disabled, TriedBy(attempts[..k]), env(k).pickNow, Picked(a.idx, a.budget, a.probing))
    && a.reply == env(k).reply
  }

  /** The attempts so far: each follows the routing rule on the health it saw. */
  ghost predicate Routed(p: Policy, disabled: seq<bool>, h0: seq<Health>, env: nat -> Surroundings,
                         attempts: seq<Attempt>)
    requires |h0| == |disabled|
  {
    forall k :: 0 <= k < |attempts| ==> AttemptOk(p, disabled, h0, env, attempts, k)
  }

  predicate AllWorthy(attempts: seq<Attempt>) {
    forall k :: 0 <= k < |attempts| ==> WorthyFailure(attempts[k].reply)
  }

  function LastError(attempts: seq<Attempt>): Option<Err> {
    if attempts != [] && attempts[|attempts| - 1].reply.SyncErr? then Some(attempts[|attempts| - 1].reply.err)
    else None
  }

  /** A finished call, attempt by attempt. */
  ghost predicate ChatRun(p: Policy, disabled: seq<bool>, h0: seq<Health>, env: nat -> Surroundings,
                          attempts: seq<Attempt>, r: ChatResult)
    requires |h0| == |disabled|
  {
    var n := |attempts|;
    && n <= |disabled|
    && Routed(p, disabled, h0, env, attempts)
    && match r
       case Streaming(i) =>
         n > 0 && AllWorthy(attempts[..n - 1]) && attempts[n - 1].reply.SyncOk? && attempts[n - 1].idx == i
       case Bubbled(e) =>
         n > 0 && AllWorthy(attempts[..n - 1]) && attempts[n - 1].reply == SyncErr(e) && !FailoverWorthy(e)
       case AllDown(last) =>
         && AllWorthy(attempts) && last == LastError(attempts)
         && (n < |disabled| ==>
               IsPick(ApplyAll(p, h0, Log(env, attempts) + env(n).before), disabled,
                      TriedBy(attempts), env(n).pickNow, NoPick))
  }

  lemma {:induction false} NoneHealthy(h: seq<Health>, disabled: seq<bool>, tried: set<nat>, n: nat)
    requires n <= |h| == |disabled|
    ensures HealthyCount(h, disabled, tried, n) == 0 <==> forall j :: 0 <= j < n && Available(disabled, tried, j) ==> !Healthy(h[j])
    decreases n
  {
    if n > 0 {
      NoneHealthy(h, disabled, tried, n - 1);
    }
  }

  /** A healthy provider is the only one exactly when one is counted. */
  lemma {:induction false} OnlyHealthy(h: seq<Health>, disabled: seq<bool>, tried: set<nat>, n: nat, i: nat)
    requires i < n <= |h| == |disabled| && Available(disabled, tried, i) && Healthy(h[i])
    ensures HealthyCount(h, disabled, tried, n) == 1 <==>
              forall j :: 0 <= j < n && Available(disabled, tried, j) && Healthy(h[j]) ==> j == i
    decreases n
  {
    NoneHealthy(h, disabled, tried, n - 1);
    if i < n - 1 {
      OnlyHealthy(h, disabled, tried, n - 1, i);
    }
  }

  /** Appending an attempt leaves the earlier ones as they were. */
  lemma ExtendRun(p: Policy, disabled: seq<bool>, h0: seq<Health>, env: nat -> Surroundings,
                  before: seq<Attempt>, after: seq<Attempt>)
    requires |h0| == |disabled| && |after| == |before| + 1 && after[..|before|] == before
    requires Routed(p, disabled, h0, env, before)
    requires AttemptOk(p, disabled, h0, env, after, |before|)
    ensures Routed(p, disabled, h0, env, after)
  {
    forall k | 0 <= k < |before| ensures AttemptOk(p, disabled, h0, env, after, k) {
      assert after[..k] == before[..k];
      assert AttemptOk(p, disabled, h0, env, before, k);
    }
  }

  /** The call's result when an attempt ends it. */
  function Answer(a: Attempt): ChatResult {
    match a.reply
    case SyncOk => Streaming(a.idx)
    case SyncErr(e) => Bubbled(e)
  }

  /** A call that ends with a provider's answer is a complete run. */
  lemma EndsAfter(p: Policy, disabled: seq<bool>, h0: seq<Health>, env: nat -> Surroundings,
                  before: seq<Attempt>, attempts: seq<Attempt>, r: ChatResult)
    requires |h0| == |disabled| && |attempts| == |before| + 1 <= |disabled| && attempts[..|before|] == before
    requires Routed(p, disabled, h0, env, attempts) && AllWorthy(before)
    requires r == Answer(attempts[|before|])
    requires !WorthyFailure(attempts[|before|].reply)
    ensures ChatRun(p, disabled, h0, env, attempts, r)
  {
  }

  lemma NoOwnEvent(env: nat -> Surroundings, before: seq<Attempt>, after: seq<Attempt>)
    requires |after| == |before| + 1 && after[..|before|] == before
    requires !WorthyFailure(after[|before|].reply)
    ensures Log(env, after) == Log(env, before) + env(|before|).before + env(|before|).during
  {
  }

  lemma OwnEvent(p: Policy, h0: seq<Health>, env: nat -> Surroundings, before: seq<Attempt>, after: seq<Attempt>)
    requires |after| == |before| + 1 && after[..|before|] == before
    requires WorthyFailure(after[|before|].reply)
    ensures var k := |before|;
            ApplyAll(p, h0, Log(env, after)) ==
            ApplyEvent(p, ApplyAll(p, h0, Log(env, before) + env(k).before + env(k).during),
                       Failure(after[k].idx, env(k).failNow))
  {
  }

  // ----- What every call guarantees -----

  function Enabled(disabled: seq<bool>): set<int> {
    set i | 0 <= i < |disabled| && !disabled[i]
  }

  lemma {:induction false} EnabledCount(disabled: seq<bool>)
    ensures |Enabled(disabled)| <= |disabled|
    decreases |disabled|
  {
    if disabled == [] {
      assert Enabled(disabled) == {};
    } else {
      var n := |disabled| - 1;
      EnabledCount(disabled[..n]);
      assert Enabled(disabled) == Enabled(disabled[..n]) + (if disabled[n] then {} else {n});
    }
  }

  lemma {:induction false} CountDistinct(attempts: seq<Attempt>, s: set<int>)
    requires forall k :: 0 <= k < |attempts| ==> attempts[k].idx in s
    requires forall i, j :: 0 <= i < j < |attempts| ==> attempts[i].idx != attempts[j].idx
    ensures |attempts| <= |s|
    decreases |attempts|
  {
    if attempts != [] {
      var last := attempts[|attempts| - 1].idx;
      CountDistinct(attempts[..|attempts| - 1], s - {last});
    }
  }

  /** No provider is called twice, none that is disabled is called at all, and
      the call ends within as many attempts as there are enabled providers. */
  lemma EachProviderAtMostOnce(p: Policy, disabled: seq<bool>, h0: seq<Health>, env: nat -> Surroundings,
                               attempts: seq<Attempt>, r: ChatResult)
    requires |h0| == |disabled| && ChatRun(p, disabled, h0, env, attempts, r)
    ensures forall i, j :: 0 <= i < j < |attempts| ==> attempts[i].idx != attempts[j].idx
    ensures forall k :: 0 <= k < |attempts| ==> attempts[k].idx in Enabled(disabled)
    ensures |attempts| <= |Enabled(disabled)|
  {
    forall k | 0 <= k < |attempts|
      ensures attempts[k].idx in Enabled(disabled)
      ensures forall i :: 0 <= i < k ==> attempts[i].idx != attempts[k].idx
    {
      assert AttemptOk(p, disabled, h0, env, attempts, k);
      forall i | 0 <= i < k ensures attempts[i].idx != attempts[k].idx {
        assert attempts[..k][i] in attempts[..k];
      }
    }
    CountDistinct(attempts, Enabled(disabled));
  }

  /** The exhausted error is returned exactly when every enabled provider was
      tried and every attempt failed in a way worth failing over. */
  lemma ExhaustedExactly(p: Policy, disabled: seq<bool>, h0: seq<Health>, env: nat -> Surroundings,
                         attempts: seq<Attempt>, r: ChatResult)
    requires |h0| == |disabled| && ChatRun(p, disabled, h0, env, attempts, r)
    ensures r.AllDown? <==>
            && (forall k :: 0 <= k < |attempts| ==> WorthyFailure(attempts[k].reply))
            && Enabled(disabled) <= (set i: int | i in TriedBy(attempts))
  {
    EachProviderAtMostOnce(p, disabled, h0, env, attempts, r);
    var n := |attempts|;
    if r.AllDown? {
      forall i | i in Enabled(disabled) ensures i in TriedBy(attempts) {
        if n < |disabled| {
          assert !Available(disabled, TriedBy(attempts), i);
        } else if i !in TriedBy(attempts) {
          EnabledCount(disabled);
          CountDistinct(attempts, Enabled(disabled) - {i});
          assert false;
        }
      }
    } else {
      assert !WorthyFailure(attempts[n - 1].reply);
    }
  }

  /** Provider i failed in a way worth failing over, in one of the attempts. */
  predicate FailedWorthily(attempts: seq<Attempt>, i: nat) {
    exists k :: 0 <= k < |attempts| && attempts[k].idx == i && WorthyFailure(attempts[k].reply)
  }

  lemma FailureChangesOne(p: Policy, h: seq<Health>, idx: nat, now: int, i: nat)
    requires i < |h|
    ensures ApplyEvent(p, h, Failure(idx, now))[i] == h[i] <==> idx != i
  {
  }

  lemma FailedAppend(front: seq<Attempt>, attempts: seq<Attempt>, i: nat)
    requires |attempts| == |front| + 1 && attempts[..|front|] == front
    ensures FailedWorthily(attempts, i) <==>
              FailedWorthily(front, i) || (attempts[|front|].idx == i && WorthyFailure(attempts[|front|].reply))
  {
  }

  /** A call alone changes the health of exactly the providers whose failure was
      worth failing over: everything else, in particular a provider that
      returned a non-worthy error, keeps its record. */
  lemma {:induction false} OnlyWorthyFailuresTrip(p: Policy, h0: seq<Health>, env: nat -> Surroundings,
                                                  attempts: seq<Attempt>, i: nat)
    requires forall k: nat :: env(k).before == [] && env(k).during == []
    requires i < |h0|
    requires forall j, k :: 0 <= j < k < |attempts| ==> attempts[j].idx != attempts[k].idx
    ensures ApplyAll(p, h0, Log(env, attempts))[i] != h0[i] <==> FailedWorthily(attempts, i)
    decreases |attempts|
  {
    if attempts != [] {
      var n := |attempts| - 1;
      var front, a := attempts[..n], attempts[n];
      OnlyWorthyFailuresTrip(p, h0, env, front, i);
      FailedAppend(front, attempts, i);
      assert Log(env, front) + env(n).before + env(n).during == Log(env, front);
      if WorthyFailure(a.reply) {
        OwnEvent(p, h0, env, front, attempts);
        FailureChangesOne(p, ApplyAll(p, h0, Log(env, front)), a.idx, env(n).failNow, i);
        NotYetFailed(attempts, n);
      } else {
        NoOwnEvent(env, front, attempts);
      }
      hide Log, ApplyAll, WorthyFailure, FailedWorthily, ApplyEvent;
    }
  }

  lemma NotYetFailed(attempts: seq<Attempt>, n: nat)
    requires n < |attempts| && forall j, k :: 0 <= j < k < |attempts| ==> attempts[j].idx != attempts[k].idx
    ensures !FailedWorthily(attempts[..n], attempts[n].idx)
  {
  }

  /** A primary whose cooldown has lapsed is chosen before any healthy fallback. */
  lemma LapsedPrimaryFirst(h: seq<Health>, disabled: seq<bool>, tried: set<nat>, now: int, p: Pick)
    requires |h| == |disabled| && IsPick(h, disabled, tried, now, p)
    requires Available(disabled, tried, 0) && ShouldProbe(h[0], now)
    ensures p == Picked(0, Probe, true)
  {
    assert Eligible(h, disabled, tried, now, 0);
  }

  // ----- Streams (stream.go) -----

  /** What the first observation of a stream's terminal error reports. */
  function TapEvents(idx: nat, terminal: Option<Err>, now: int): seq<Event> {
    match terminal
    case None => [Success(idx)]
    case Some(e) => if FailoverWorthy(e) then [Failure(idx, now)] else []
  }

  /** A stream that ended well frees its provider, one that ended in an error worth failing
      over trips it, and any other end leaves health alone. */
  lemma TapReads(p: Policy, h: seq<Health>, idx: nat, terminal: Option<Err>, now: int)
    requires idx < |h|
    ensures var after := ApplyAll(p, h, TapEvents(idx, terminal, now));
            && (forall i :: 0 <= i < |h| && i != idx ==> after[i] == h[i])
            && (terminal.None? ==> after[idx] == Health(0, 0, None))
            && (terminal.Some? && FailoverWorthy(terminal.value) ==>
                  after[idx].fails == h[idx].fails + 1 && after[idx].until == Some(now + after[idx].cooldown))
            && (terminal.Some? && !FailoverWorthy(terminal.value) ==> after == h)
  {
    hide FailoverWorthy;
    var es := TapEvents(idx, terminal, now);
    if es != [] {
      assert es[..0] == [] && ApplyAll(p, h, es) == ApplyEvent(p, h, es[0]);
      EventReads(p, h, es[0]);
    }
  }

  /** The events of a whole sequence of Err calls on one stream. */
  function StreamLog(idx: nat, fired: bool, calls: seq<(Option<Err>, int)>): seq<Event>
    decreases |calls|
  {
    if calls == [] then []
    else (if fired then [] else TapEvents(idx, calls[0].0, calls[0].1)) + StreamLog(idx, true, calls[1..])
  }

  /** However often a stream is asked for its error, it changes health at most
      once, and only as its first answer says. */
  lemma {:induction false} StreamReportsOnce(idx: nat, calls: seq<(Option<Err>, int)>)
    ensures |StreamLog(idx, false, calls)| <= 1
    ensures StreamLog(idx, false, calls) ==
            if calls == [] then [] else TapEvents(idx, calls[0].0, calls[0].1)
  {
    if calls != [] {
      FiredStreamIsSilent(idx, calls[1..]);
    }
  }

  lemma {:induction false} StreamLogAppend(idx: nat, fired: bool, calls: seq<(Option<Err>, int)>, c: (Option<Err>, int))
    ensures StreamLog(idx, fired, calls + [c]) ==
            StreamLog(idx, fired, calls) + if fired || calls != [] then [] else TapEvents(idx, c.0, c.1)
    decreases |calls|
  {
    if calls == [] {
      assert (calls + [c])[1..] == [];
    } else {
      assert (calls + [c])[1..] == calls[1..] + [c];
      StreamLogAppend(idx, true, calls[1..], c);
    }
  }

  lemma {:induction false} FiredStreamIsSilent(idx: nat, calls: seq<(Option<Err>, int)>)
    ensures StreamLog(idx, true, calls) == []
    decreases |calls|
  {
    if calls != [] {
      FiredStreamIsSilent(idx, calls[1..]);
    }
  }
}

/** Human-in-the-loop prompts: the durable waits (internal/persistence/sqlite/waits.go),
    the prompter and its live registry (internal/humanloop), emission
    (internal/channel/websocket/translator.go) and reply routing
    (internal/channel/websocket/conn.go) of one session, with crashes in between. */
module Prompts {
  import opened Common

  /** In the order in which a reply is tried against them. */
  datatype Kind = Question | StepDecision | PlanReview | Permission

  /** expires 0 means never. */
  datatype Wait = Wait(id: string, sessionId: string, kind: Kind, correlation: string, frame: string, created: int, expires: int)

  const DEFAULT_EXPIRY := 15 * 24 * 3600

  predicate Expired(expires: int, now: int) {
    expires != 0 && expires <= now
  }

  // ----- The store and the prompter -----

  class WaitStore {
    var rows: map<string, Wait>

    constructor ()
      ensures rows == map[]
    {
      rows := map[];
    }

    /** ok says whether the database takes the row; incomplete rows are refused beforehand,
        and a row without a creation time gets the present one. */
    method Save(w: Wait, now: int, ok: bool) returns (saved: bool)
      modifies this
      ensures saved <==> ok && w.id != "" && w.sessionId != ""
      ensures rows == if saved then old(rows)[w.id := w.(created := if w.created == 0 then now else w.created)] else old(rows)
    {
      saved := false;
      if w.id == "" || w.sessionId == "" {
        return;
      }
      var row := w;
      if row.created == 0 {
        row := row.(created := now);
      }
      if ok {
        rows := rows[w.id := row];
        saved := true;
      }
    }

    method Delete(id: string, ok: bool)
      modifies this
      ensures rows == if ok then old(rows) - {id} else old(rows)
    {
      if ok {
        rows := rows - {id};
      }
    }

    /** Exactly the rows past their expiry go. */
    method DeleteExpired(now: int) returns (n: nat)
      modifies this
      ensures forall id :: id in rows <==> id in old(rows) && !Expired(old(rows)[id].expires, now)
      ensures forall id :: id in rows ==> rows[id] == old(rows)[id]
      ensures n + |rows| == |old(rows)|
    {
      var gone := set id | id in rows && Expired(rows[id].expires, now);
      n := |gone|;
      assert |rows.Keys| == |rows.Keys - gone| + |gone|;
      rows := rows - gone;
      assert rows.Keys == old(rows).Keys - gone;
    }
  }

  function Stamped(w: Wait, now: int): Wait {
    var c := if w.created == 0 then w.(created := now) else w;
    if c.expires == 0 then c.(expires := c.created + DEFAULT_EXPIRY) else c
  }

  /** A wait keeps the times it has; otherwise it is created now and expires 15 days later. */
  lemma StampedReads(w: Wait, now: int)
    ensures var s := Stamped(w, now);
            && s.(created := w.created, expires := w.expires) == w
            && (w.created != 0 ==> s.created == w.created) && (w.created == 0 ==> s.created == now)
            && (w.expires != 0 ==> s.expires == w.expires) && (w.expires == 0 ==> s.expires == s.created + 15 * 86400)
  {
  }

  class Prompter<A> {
    const store: WaitStore
    /** The channels of the goroutines that wait for an answer; each holds at most one. */
    var live: map<string, seq<A>>

    constructor (store: WaitStore)
      ensures this.store == store && live == map[]
    {
      this.store := store;
      live := map[];
    }

    method IssueWait(w: Wait, now: int, ok: bool) returns (issued: bool)
      modifies store
      ensures issued <==> ok && w.id != "" && w.sessionId != ""
      ensures store.rows == if issued then old(store.rows)[w.id := Stamped(w, now)] else old(store.rows)
    {
      issued := store.Save(Stamped(w, now), now, ok);
    }

    /** Issue: the row first, the live channel only when the row is there. */
    method Issue(w: Wait, now: int, ok: bool) returns (issued: bool)
      modifies store, this
      ensures issued <==> ok && w.id != "" && w.sessionId != ""
      ensures store.rows == if issued then old(store.rows)[w.id := Stamped(w, now)] else old(store.rows)
      ensures live == if issued then old(live)[w.id := []] else old(live)
    {
      issued := store.Save(Stamped(w, now), now, ok);
      if issued {
        live := live[w.id := []];
      }
    }

    method Unregister(id: string)
      modifies this
      ensures live == old(live) - {id}
    {
      live := live - {id};
    }

    /** Deliver never blocks: a second answer for a channel that is full is dropped. */
    method Deliver(id: string, answer: A) returns (delivered: bool)
      modifies this
      ensures delivered <==> id in old(live)
      ensures live == if id in old(live) && old(live)[id] == [] then old(live)[id := [answer]] else old(live)
    {
      if id !in live {
        return false;
      }
      if live[id] == [] {
        live := live[id := [answer]];
      }
      return true;
    }

    method SweepExpired(now: int) returns (n: nat)
      modifies store
      ensures forall id :: id in store.rows <==> id in old(store.rows) && !Expired(old(store.rows)[id].expires, now)
      ensures forall id :: id in store.rows ==> store.rows[id] == old(store.rows)[id]
      ensures n + |store.rows| == |old(store.rows)|
    {
      n := store.DeleteExpired(now);
    }
  }

  // ----- Emission and routing as a machine with crashes -----

  /** Which collaborators the channel has. */
  datatype Wiring = Wiring(prompter: bool, resumer: bool)

  datatype Prompt = Prompt(id: string, kind: Kind, engineId: string, expires: int)

  /** An emission under way; it holds the session lock. */
  datatype Emission = Quiet | Persisted(prompt: Prompt) | Shown(prompt: Prompt)

  /** The reply being handled; a row that was looked up is held with its expiry. */
  datatype Handler = Ready | LiveHit(id: string) | Found(id: string, expires: int) | Consumed(id: string)

  /** store holds the durable waits with their expiry, tracked the in-memory maps from
      kind and request id to the engine's id, wire the prompts a client may answer;
      routed lists the replies handed to the engine since the process started, handled all
      of them, and dropped those that could not be published. */
  datatype State = State(now: int, store: map<string, int>, tracked: map<(Kind, string), string>,
                         emission: Emission, handler: Handler, wire: map<string, int>, issued: set<string>,
                         routed: seq<string>, handled: set<string>, dropped: set<string>, rejected: seq<string>)

  datatype Action =
    | Advance(to: int)
    | Persist(id: string, kind: Kind, engineId: string, ok: bool)
    | Show
    | Track
    | Reply(id: string, readable: bool)
    | Publish(ok: bool)
    | Resume(ok: bool)
    | Forget(ok: bool)
    | Crash
    | DropSession
    | Reconnect
    | Sweep

  function Init(now: int): State {
    State(now, map[], map[], Quiet, Ready, map[], {}, [], {}, {}, [])
  }

  /** The map that knows the request id, tried in a fixed order; an empty engine id counts as unknown. */
  function Resolve(tracked: map<(Kind, string), string>, id: string): Option<Kind> {
    if Knows(tracked, Question, id) then Some(Question)
    else if Knows(tracked, StepDecision, id) then Some(StepDecision)
    else if Knows(tracked, PlanReview, id) then Some(PlanReview)
    else if Knows(tracked, Permission, id) then Some(Permission)
    else None
  }

  predicate Knows(tracked: map<(Kind, string), string>, kind: Kind, id: string) {
    (kind, id) in tracked && tracked[(kind, id)] != ""
  }

  predicate Enabled(s: State, a: Action) {
    match a
    case Advance(to) => s.now <= to
    case Persist(id, _, _, _) => s.emission == Quiet && id !in s.issued && id != ""
    case Show => s.emission.Persisted?
    case Track => s.emission.Shown?
    case Reply(_, _) => s.handler == Ready && s.emission == Quiet
    case Publish(_) => s.handler.LiveHit?
    case Resume(_) => s.handler.Found?
    case Forget(_) => s.handler.Consumed?
    case DropSession => s.emission == Quiet
    case _ => true
  }

  function Unexpired(store: map<string, int>, now: int): map<string, int> {
    map id | id in store && !Expired(store[id], now) :: store[id]
  }

  /** The engine has been given the reply. */
  function Routed(s: State, id: string): State {
    s.(handler := Consumed(id), routed := s.routed + [id], handled := s.handled + {id})
  }

  function Next(w: Wiring, s: State, a: Action): State
    requires Enabled(s, a)
  {
    match a
    case Advance(to) => s.(now := to)
    case Persist(id, kind, engineId, ok) =>
      var p := Prompt(id, kind, engineId, s.now + DEFAULT_EXPIRY);
      var t := s.(issued := s.issued + {id});
      if !w.prompter then t.(emission := Persisted(p))
      else if ok then t.(emission := Persisted(p), store := s.store[id := p.expires])
      else t
    case Show =>
      var p := s.emission.prompt;
      s.(wire := s.wire[p.id := p.expires], emission := Shown(p))
    case Track =>
      var p := s.emission.prompt;
      s.(tracked := s.tracked[(p.kind, p.id) := p.engineId], emission := Quiet)
    case Reply(id, readable) =>
      var kind := Resolve(s.tracked, id);
      if kind.Some? then s.(tracked := s.tracked - {(kind.value, id)}, handler := LiveHit(id))
      else if w.prompter && w.resumer && readable && id in s.store then s.(handler := Found(id, s.store[id]))
      else s.(rejected := s.rejected + [id])
    case Publish(ok) =>
      if ok then Routed(s, s.handler.id)
      else s.(handler := Consumed(s.handler.id), dropped := s.dropped + {s.handler.id})
    case Resume(ok) =>
      if ok then Routed(s, s.handler.id)
      else s.(handler := Ready)
    case Forget(ok) => s.(handler := Ready, store := if w.prompter && ok then s.store - {s.handler.id} else s.store)
    case Crash => s.(tracked := map[], emission := Quiet, handler := Ready, routed := [])
    case DropSession => s.(tracked := map[])
    case Reconnect => if w.prompter then s.(wire := s.wire + s.store) else s
    case Sweep => if w.prompter then s.(store := Unexpired(s.store, s.now)) else s
  }

  // ----- Every prompt that can be answered can be recovered -----

  /** No reply to it was handed to the engine or dropped on the way. */
  predicate Unanswered(s: State, id: string) {
    id !in s.handled && id !in s.dropped
  }

  ghost predicate Durable(s: State) {
    && (forall id :: id in s.wire && Unanswered(s, id) && !Expired(s.wire[id], s.now) ==> id in s.store)
    && (forall id :: id in s.wire && id in s.store ==> s.store[id] == s.wire[id])
    && (forall id :: id in s.wire || id in s.store ==> id in s.issued)
    && (s.handler.Consumed? ==> !Unanswered(s, s.handler.id))
    && (!s.emission.Quiet? ==> s.emission.prompt.id in s.issued)
    && (s.emission.Persisted? ==>
          var p := s.emission.prompt;
          && (!Expired(p.expires, s.now) && Unanswered(s, p.id) ==> p.id in s.store)
          && (p.id in s.store ==> s.store[p.id] == p.expires)
          && (p.id in s.wire ==> s.wire[p.id] == p.expires))
  }

  lemma DurableStep(w: Wiring, s: State, a: Action)
    requires w.prompter && Durable(s) && Enabled(s, a)
    ensures Durable(Next(w, s, a))
  {
    hide Durable, Next, Enabled;
    if a.Publish? || a.Resume? || a.Forget? {
      DurableHandling(w, s, a);
    } else if a.Persist? || a.Show? || a.Track? {
      DurableEmission(w, s, a);
    } else {
      DurableElse(w, s, a);
    }
  }

  lemma DurableHandling(w: Wiring, s: State, a: Action)
    requires w.prompter && Durable(s) && Enabled(s, a) && (a.Publish? || a.Resume? || a.Forget?)
    ensures Durable(Next(w, s, a))
  {
  }

  lemma DurableEmission(w: Wiring, s: State, a: Action)
    requires w.prompter && Durable(s) && Enabled(s, a) && (a.Persist? || a.Show? || a.Track?)
    ensures Durable(Next(w, s, a))
  {
  }

  lemma DurableElse(w: Wiring, s: State, a: Action)
    requires w.prompter && Durable(s) && Enabled(s, a)
    requires !a.Publish? && !a.Resume? && !a.Forget? && !a.Persist? && !a.Show? && !a.Track?
    ensures Durable(Next(w, s, a))
  {
    if a.Sweep? {
      forall id | id in s.store && !Expired(s.store[id], s.now) ensures id in Unexpired(s.store, s.now) {
      }
    }
  }

  function After(w: Wiring, s: State, run: seq<Action>): Option<State> {
    if run == [] then Some(s)
    else
      var front := After(w, s, run[..|run| - 1]);
      if front.Some? && Enabled(front.value, run[|run| - 1]) then Some(Next(w, front.value, run[|run| - 1])) else None
  }

  lemma {:induction false} DurableAlways(w: Wiring, now: int, run: seq<Action>)
    requires w.prompter && After(w, Init(now), run).Some?
    ensures Durable(After(w, Init(now), run).value)
  {
    if run != [] {
      hide Durable, Next, Enabled;
      DurableAlways(w, now, run[..|run| - 1]);
      DurableStep(w, After(w, Init(now), run[..|run| - 1]).value, run[|run| - 1]);
    } else {
      assert Durable(Init(now));
    }
  }

  /** In every reachable state, over crashes, reconnects and sweeps, each prompt on the
      wire that is unanswered and unexpired has a durable wait. */
  lemma PromptsSurviveCrashes(w: Wiring, now: int, run: seq<Action>, id: string)
    requires w.prompter && After(w, Init(now), run).Some?
    requires var s := After(w, Init(now), run).value;
             id in s.wire && Unanswered(s, id) && !Expired(s.wire[id], s.now)
    ensures id in After(w, Init(now), run).value.store
  {
    DurableAlways(w, now, run);
  }

  /** A reply to this request is on its way to the engine. */
  predicate Handling(s: State, id: string) {
    s.handler == LiveHit(id) || (s.handler.Found? && s.handler.id == id)
  }

  /** So a reply to it is never rejected: it reaches the engine's waiter or the recovery path. */
  lemma ReplyIsRouted(w: Wiring, now: int, run: seq<Action>, id: string)
    requires w.prompter && w.resumer && After(w, Init(now), run).Some?
    requires var s := After(w, Init(now), run).value;
             && Enabled(s, Reply(id, true))
             && id in s.wire && Unanswered(s, id) && !Expired(s.wire[id], s.now)
    ensures var s := After(w, Init(now), run).value;
            var t := Next(w, s, Reply(id, true));
            Handling(t, id) && t.rejected == s.rejected
  {
    DurableAlways(w, now, run);
  }

  lemma ResolveKnows(tracked: map<(Kind, string), string>, id: string)
    ensures Resolve(tracked, id).Some? ==> Knows(tracked, Resolve(tracked, id).value, id)
    ensures Resolve(tracked, id).None? ==> forall k :: !Knows(tracked, k, id)
    ensures Resolve(tracked, id).None? ==> forall k :: (k, id) in tracked ==> tracked[(k, id)] == ""
  {
    if Resolve(tracked, id).None? {
      forall k ensures !Knows(tracked, k, id) {
        match k {
          case Question =>
          case StepDecision =>
          case PlanReview =>
          case Permission =>
        }
      }
      assert forall k :: (k, id) in tracked ==> Knows(tracked, k, id) || tracked[(k, id)] == "";
    }
  }

  /** A reply is rejected exactly when no map knows it and the store cannot help. */
  lemma RejectedExactly(w: Wiring, s: State, id: string, readable: bool)
    requires Enabled(s, Reply(id, readable))
    ensures Next(w, s, Reply(id, readable)).rejected != s.rejected <==>
              (forall k :: !Knows(s.tracked, k, id)) && !(w.prompter && w.resumer && readable && id in s.store)
  {
    ResolveKnows(s.tracked, id);
    assert |s.rejected + [id]| != |s.rejected|;
  }

  // ----- What the process itself remembers -----

  ghost predicate Unknown(s: State, id: string) {
    forall k :: (k, id) in s.tracked ==> s.tracked[(k, id)] == ""
  }

  ghost predicate Steady(s: State) {
    && (forall k, id :: (k, id) in s.tracked ==> id in s.issued)
    && (forall id :: id in s.store || id in s.routed ==> id in s.issued)
    && (forall j, k, id :: (j, id) in s.tracked && (k, id) in s.tracked ==> j == k)
    && (s.handler.LiveHit? || s.handler.Found? ==> s.handler.id in s.issued && Unknown(s, s.handler.id))
    && (s.handler.Found? ==>
          if s.handler.id in s.store then s.store[s.handler.id] == s.handler.expires else Expired(s.handler.expires, s.now))
    && (!s.emission.Quiet? ==>
          var p := s.emission.prompt;
          p.id in s.issued && (forall k :: (k, p.id) !in s.tracked) && !Handling(s, p.id))
  }

  lemma SteadyReply(w: Wiring, s: State, id: string, readable: bool)
    requires Steady(s) && Enabled(s, Reply(id, readable))
    ensures Steady(Next(w, s, Reply(id, readable)))
  {
    ResolveKnows(s.tracked, id);
  }

  lemma SteadyPersist(w: Wiring, s: State, id: string, kind: Kind, engineId: string, ok: bool)
    requires Steady(s) && Enabled(s, Persist(id, kind, engineId, ok))
    ensures Steady(Next(w, s, Persist(id, kind, engineId, ok)))
  {
  }

  lemma SteadyStep(w: Wiring, s: State, a: Action)
    requires Steady(s) && Enabled(s, a)
    ensures Steady(Next(w, s, a))
  {
    match a
    case Reply(id, readable) => SteadyReply(w, s, id, readable);
    case Persist(id, kind, engineId, ok) => SteadyPersist(w, s, id, kind, engineId, ok);
    case Sweep =>
      forall id | id in s.store && !Expired(s.store[id], s.now) ensures id in Unexpired(s.store, s.now) {
      }
    case _ =>
  }

  lemma {:induction false} SteadyAlways(w: Wiring, now: int, run: seq<Action>)
    requires After(w, Init(now), run).Some?
    ensures Steady(After(w, Init(now), run).value)
  {
    if run != [] {
      hide Steady, Next, Enabled;
      SteadyAlways(w, now, run[..|run| - 1]);
      SteadyStep(w, After(w, Init(now), run[..|run| - 1]).value, run[|run| - 1]);
    } else {
      assert Steady(Init(now));
    }
  }

  // ----- Replies that do not reach the engine -----

  /** In every reachable state: a resume that fails leaves everything as it was, and unless
      the wait has expired meanwhile, sending the reply again leads back to the same attempt. */
  lemma FailedResumeKeepsWait(w: Wiring, now: int, run: seq<Action>)
    requires w.prompter && w.resumer && After(w, Init(now), run).Some?
    requires var s := After(w, Init(now), run).value; s.handler.Found? && s.emission == Quiet
    ensures var s := After(w, Init(now), run).value;
            var t := Next(w, s, Resume(false));
            && t.store == s.store && t.routed == s.routed && Enabled(t, Reply(s.handler.id, true))
            && (!Expired(s.handler.expires, s.now) ==> Next(w, t, Reply(s.handler.id, true)) == s)
  {
    SteadyAlways(w, now, run);
    var s := After(w, Init(now), run).value;
    UnknownUnresolved(s, s.handler.id);
  }

  lemma UnknownUnresolved(s: State, id: string)
    requires Unknown(s, id)
    ensures Resolve(s.tracked, id).None? && forall k :: !Knows(s.tracked, k, id)
  {
  }

  /** What becomes of a reply that the engine does not get: a publication that failed is
      followed by the deletion of the wait all the same, a resume that failed is not. */
  function NotHandedOver(w: Wiring, s: State, deletes: bool): State
    requires s.handler.LiveHit? || s.handler.Found?
  {
    if s.handler.LiveHit? then Next(w, Next(w, s, Publish(false)), Forget(deletes)) else Next(w, s, Resume(false))
  }

  /** In every reachable state, a prompt whose reply did not reach the engine can be answered
      again if and only if its row is there and the reply took the recovery path or the
      deletion of the row failed. */
  lemma AnswerableAfterFailure(w: Wiring, now: int, run: seq<Action>, deletes: bool)
    requires w.prompter && w.resumer && After(w, Init(now), run).Some?
    requires var s := After(w, Init(now), run).value; (s.handler.LiveHit? || s.handler.Found?) && s.emission == Quiet
    ensures var s := After(w, Init(now), run).value;
            var t := NotHandedOver(w, s, deletes);
            Enabled(t, Reply(s.handler.id, true)) &&
            (Next(w, t, Reply(s.handler.id, true)).rejected == t.rejected <==>
               s.handler.id in s.store && (s.handler.Found? || !deletes))
  {
    SteadyAlways(w, now, run);
    var s := After(w, Init(now), run).value;
    var id := s.handler.id;
    UnknownUnresolved(s, id);
    RejectedExactly(w, NotHandedOver(w, s, deletes), id, true);
  }

  // ----- Nothing is routed twice by one process -----

  function Times(s: State, id: string): nat {
    multiset(s.routed)[id]
  }

  /** id was routed at most once, and is not about to be routed again. */
  ghost predicate Once(s: State, id: string) {
    && Times(s, id) <= 1
    && (id in s.routed ==> Unknown(s, id) && (id in s.store ==> s.handler == Consumed(id)))
    && (id in s.routed ==> !Handling(s, id) && (s.emission.Quiet? || s.emission.prompt.id != id))
  }

  /** A row of id that is to be deleted does go. */
  predicate Removes(s: State, a: Action, id: string) {
    a.Forget? && s.handler == Consumed(id) ==> a.ok
  }

  lemma OnceReply(w: Wiring, s: State, reply: string, readable: bool, id: string)
    requires Steady(s) && Once(s, id) && Enabled(s, Reply(reply, readable))
    ensures Once(Next(w, s, Reply(reply, readable)), id)
  {
    ResolveKnows(s.tracked, reply);
  }

  lemma OnceHandedOver(w: Wiring, s: State, a: Action, id: string)
    requires Steady(s) && Once(s, id) && Enabled(s, a) && (a.Publish? || a.Resume?)
    ensures Once(Next(w, s, a), id)
  {
    OnceRouted(s, s.handler.id, id);
    hide Steady;
  }

  lemma OnceRouted(s: State, reply: string, id: string)
    requires Steady(s) && Once(s, id) && Handling(s, reply)
    ensures Once(Routed(s, reply), id)
  {
    assert Times(Routed(s, reply), id) == Times(s, id) + if reply == id then 1 else 0;
    hide Times;
    if reply == id {
      assert Unknown(s, id);
      NotYet(s, id);
    }
    hide Unknown;
  }

  lemma NotYet(s: State, id: string)
    requires id !in s.routed
    ensures Times(s, id) == 0
  {
  }

  lemma OnceForget(w: Wiring, s: State, a: Action, id: string)
    requires w.prompter && Once(s, id) && Enabled(s, a) && a.Forget? && Removes(s, a, id)
    ensures Once(Next(w, s, a), id)
  {
  }

  lemma OnceElse(w: Wiring, s: State, a: Action, id: string)
    requires Steady(s) && Once(s, id) && Enabled(s, a) && !a.Reply? && !a.Publish? && !a.Resume? && !a.Forget?
    ensures Once(Next(w, s, a), id)
  {
  }

  lemma OnceStep(w: Wiring, s: State, a: Action, id: string)
    requires w.prompter && Steady(s) && Once(s, id) && Enabled(s, a) && Removes(s, a, id)
    ensures Once(Next(w, s, a), id)
  {
    match a
    case Reply(reply, readable) => OnceReply(w, s, reply, readable, id);
    case Publish(_) => OnceHandedOver(w, s, a, id);
    case Resume(_) => OnceHandedOver(w, s, a, id);
    case Forget(_) => OnceForget(w, s, a, id);
    case _ => OnceElse(w, s, a, id);
  }

  /** Every deletion of the run that concerns id succeeds. */
  predicate RemovesAlways(w: Wiring, s: State, run: seq<Action>, id: string)
    requires After(w, s, run).Some?
  {
    run == [] ||
    (RemovesAlways(w, s, run[..|run| - 1], id) && Removes(After(w, s, run[..|run| - 1]).value, run[|run| - 1], id))
  }

  /** As long as the deletions of its row succeed, one process hands a request id to the
      engine at most once, however often the user replies. */
  lemma {:induction false} RoutedOnce(w: Wiring, now: int, run: seq<Action>, id: string)
    requires w.prompter && After(w, Init(now), run).Some? && RemovesAlways(w, Init(now), run, id)
    ensures Once(After(w, Init(now), run).value, id) && Times(After(w, Init(now), run).value, id) <= 1
  {
    if run != [] {
      hide Once, Steady, Next, Enabled, Removes, Times;
      RoutedOnce(w, now, run[..|run| - 1], id);
      SteadyAlways(w, now, run[..|run| - 1]);
      OnceStep(w, After(w, Init(now), run[..|run| - 1]).value, run[|run| - 1], id);
      OnceIsOnce(After(w, Init(now), run).value, id);
    }
  }

  lemma OnceIsOnce(s: State, id: string)
    requires Once(s, id)
    ensures Times(s, id) <= 1
  {
  }

  /** The same reply again is rejected if and only if the row was deleted or was not there. */
  lemma SecondReplyRejectedIff(w: Wiring, s: State, id: string, ok: bool)
    requires w.prompter && w.resumer && Once(s, id) && id in s.routed && s.handler == Consumed(id) && s.emission == Quiet
    ensures var t := Next(w, s, Forget(ok));
            Enabled(t, Reply(id, true)) &&
            (Next(w, t, Reply(id, true)).rejected != t.rejected <==> ok || id !in s.store)
  {
    var t := Next(w, s, Forget(ok));
    UnknownUnresolved(s, id);
    RejectedExactly(w, t, id, true);
  }

  /** No trace of id is left. */
  ghost predicate Spent(s: State, id: string) {
    && id in s.issued && id !in s.store && Unknown(s, id) && !Handling(s, id)
    && (s.emission.Quiet? || s.emission.prompt.id != id)
  }

  lemma SpentStep(w: Wiring, s: State, a: Action, id: string)
    requires Spent(s, id) && Enabled(s, a)
    ensures Spent(Next(w, s, a), id) && Times(Next(w, s, a), id) <= Times(s, id)
  {
    UnknownUnresolved(s, id);
    if a.Reply? {
      ResolveKnows(s.tracked, a.id);
    }
  }

  lemma {:induction false} SpentForEver(w: Wiring, s: State, run: seq<Action>, id: string)
    requires Spent(s, id) && After(w, s, run).Some?
    ensures Spent(After(w, s, run).value, id) && Times(After(w, s, run).value, id) <= Times(s, id)
  {
    if run != [] {
      hide Spent, Times, Next, Enabled;
      SpentForEver(w, s, run[..|run| - 1], id);
      SpentStep(w, After(w, s, run[..|run| - 1]).value, run[|run| - 1], id);
    }
  }

  lemma Start(w: Wiring, s: State) returns (run: seq<Action>)
    ensures After(w, s, run) == Some(s)
  {
    run := [];
  }

  lemma Extend(w: Wiring, s: State, run: seq<Action>, a: Action) returns (longer: seq<Action>)
    requires After(w, s, run).Some? && Enabled(After(w, s, run).value, a)
    ensures After(w, s, longer) == Some(Next(w, After(w, s, run).value, a))
  {
    longer := run + [a];
    assert longer[..|longer| - 1] == run;
  }

  ghost predicate Again(w: Wiring, s: State, run: seq<Action>, id: string) {
    After(w, s, run).Some? && Times(After(w, s, run).value, id) > 1
  }

  /** An emission under way comes to its end. */
  lemma FinishEmission(w: Wiring, s: State, id: string) returns (run: seq<Action>)
    requires s.handler == Ready && Unknown(s, id) && (s.emission.Quiet? || s.emission.prompt.id != id)
    ensures After(w, s, run).Some?
    ensures var t := After(w, s, run).value;
            t.handler == Ready && t.emission == Quiet && t.store == s.store && t.routed == s.routed && Unknown(t, id)
  {
    run := Start(w, s);
    hide After;
    if s.emission.Persisted? {
      run := Extend(w, s, run, Show);
    }
    if !s.emission.Quiet? {
      run := Extend(w, s, run, Track);
    }
  }

  lemma RecoveredAgain(w: Wiring, s: State, id: string) returns (run: seq<Action>)
    requires w.prompter && w.resumer && s.handler == Ready && Unknown(s, id) && id in s.store && Times(s, id) == 1
    requires s.emission.Quiet? || s.emission.prompt.id != id
    ensures Again(w, s, run, id)
  {
    run := FinishEmission(w, s, id);
    UnknownUnresolved(After(w, s, run).value, id);
    hide After, Resolve, Unknown;
    run := Extend(w, s, run, Reply(id, true));
    run := Extend(w, s, run, Resume(true));
    assert After(w, s, run).value.routed == s.routed + [id];
  }

  /** Exactly a deletion that fails, which the code ignores, lets a reply through a second
      time: after a reply was routed in a run in which the row's deletions succeed, a
      continuation that routes it again exists if and only if its row is there and the
      deletion of this one fails. */
  lemma RoutedAgainIff(w: Wiring, now: int, run: seq<Action>, id: string, ok: bool)
    requires w.prompter && w.resumer && After(w, Init(now), run).Some? && RemovesAlways(w, Init(now), run, id)
    requires var s := After(w, Init(now), run).value; s.handler == Consumed(id) && id in s.routed
    ensures var s := After(w, Init(now), run).value;
            (exists more :: Again(w, Next(w, s, Forget(ok)), more, id)) <==> !ok && id in s.store
  {
    var s := After(w, Init(now), run).value;
    var t := Next(w, s, Forget(ok));
    RoutedOnce(w, now, run, id);
    SteadyAlways(w, now, run);
    assert Times(t, id) == 1;
    if !ok && id in s.store {
      var more := RecoveredAgain(w, t, id);
    } else {
      assert Spent(t, id);
      hide Spent, After;
      forall more | Again(w, t, more, id) ensures false {
        SpentForEver(w, t, more, id);
      }
    }
  }

  /** Such a run exists. */
  lemma FailedDeleteAllowsSecondRouting(now: int, id: string, engineId: string) returns (run: seq<Action>)
    requires id != "" && engineId != ""
    ensures After(Wiring(true, true), Init(now), run).Some?
    ensures After(Wiring(true, true), Init(now), run).value.routed == [id, id]
  {
    var w, s := Wiring(true, true), Init(now);
    run := Start(w, s);
    hide After;
    run := Extend(w, s, run, Persist(id, Question, engineId, true));
    run := Extend(w, s, run, Show);
    run := Extend(w, s, run, Track);
    run := Extend(w, s, run, Reply(id, true));
    run := Extend(w, s, run, Publish(true));
    run := Extend(w, s, run, Forget(false));
    run := Extend(w, s, run, Reply(id, true));
    run := Extend(w, s, run, Resume(true));
    assert After(w, s, run).value.routed == [] + [id] + [id];
  }

  // ----- The channel's own methods -----

  datatype Outcome =
    | Live(kind: Kind, engineId: string)
    | Unpublished(kind: Kind, engineId: string)
    | Recovered
    | ResumeFailed
    | Rejected

  /** What befalls one reply: is the stored row readable, does the publication, the resume
      and the deletion succeed. */
  datatype Luck = Luck(readable: bool, publishes: bool, resumes: bool, deletes: bool)

  /** What one reply does when nothing crashes in between. */
  function ReplyEffect(w: Wiring, store: map<string, int>, tracked: map<(Kind, string), string>, id: string, luck: Luck)
    : (Outcome, map<string, int>, map<(Kind, string), string>)
  {
    var kind := Resolve(tracked, id);
    var forgotten := if w.prompter && luck.deletes then store - {id} else store;
    if kind.Some? then
      var engineId := tracked[(kind.value, id)];
      (if luck.publishes then Live(kind.value, engineId) else Unpublished(kind.value, engineId),
       forgotten, tracked - {(kind.value, id)})
    else if w.prompter && w.resumer && luck.readable && id in store then
      if luck.resumes then (Recovered, forgotten, tracked) else (ResumeFailed, store, tracked)
    else (Rejected, store, tracked)
  }

  /** The kinds that are tried before this one. */
  predicate TriedBefore(k: Kind, kind: Kind) {
    match kind
    case Question => false
    case StepDecision => k == Question
    case PlanReview => k == Question || k == StepDecision
    case Permission => k != Permission
  }

  /** kind is the first in the order of trial whose map has a usable entry for the id. */
  ghost predicate FirstKnown(tracked: map<(Kind, string), string>, id: string, kind: Kind) {
    && (kind, id) in tracked && tracked[(kind, id)] != ""
    && forall k :: TriedBefore(k, kind) && (k, id) in tracked ==> tracked[(k, id)] == ""
  }

  ghost predicate NobodyKnows(tracked: map<(Kind, string), string>, id: string) {
    forall k :: (k, id) in tracked ==> tracked[(k, id)] == ""
  }

  /** What a reply comes to: the entry of the first kind that knows the id is taken out and
      its engine id is what is published, and the wait is forgotten whether or not that
      works; an unknown id with a readable wait is resumed, and forgotten if that works;
      anything else is rejected. */
  ghost predicate Answered(w: Wiring, before: map<string, int>, tracked: map<(Kind, string), string>, id: string, luck: Luck,
                           outcome: Outcome, after: map<string, int>, trackedAfter: map<(Kind, string), string>)
  {
    match outcome
    case Live(kind, engineId) =>
      && luck.publishes && FirstKnown(tracked, id, kind) && engineId == tracked[(kind, id)]
      && trackedAfter == tracked - {(kind, id)} && Forgotten(w, before, id, luck, after)
    case Unpublished(kind, engineId) =>
      && !luck.publishes && FirstKnown(tracked, id, kind) && engineId == tracked[(kind, id)]
      && trackedAfter == tracked - {(kind, id)} && Forgotten(w, before, id, luck, after)
    case Recovered =>
      && NobodyKnows(tracked, id) && Recoverable(w, before, id, luck) && luck.resumes
      && trackedAfter == tracked && Forgotten(w, before, id, luck, after)
    case ResumeFailed =>
      && NobodyKnows(tracked, id) && Recoverable(w, before, id, luck) && !luck.resumes
      && trackedAfter == tracked && after == before
    case Rejected =>
      && NobodyKnows(tracked, id) && !Recoverable(w, before, id, luck) && trackedAfter == tracked && after == before
  }

  predicate Recoverable(w: Wiring, store: map<string, int>, id: string, luck: Luck) {
    w.prompter && w.resumer && luck.readable && id in store
  }

  predicate Forgotten(w: Wiring, before: map<string, int>, id: string, luck: Luck, after: map<string, int>) {
    after == if w.prompter && luck.deletes then before - {id} else before
  }

  lemma ReplyEffectReads(w: Wiring, store: map<string, int>, tracked: map<(Kind, string), string>, id: string, luck: Luck)
    ensures var (outcome, after, trackedAfter) := ReplyEffect(w, store, tracked, id, luck);
            Answered(w, store, tracked, id, luck, outcome, after, trackedAfter)
  {
    ResolveKnows(tracked, id);
    if Resolve(tracked, id).Some? {
      FirstResolved(tracked, id);
    }
    hide Resolve;
  }

  lemma FirstResolved(tracked: map<(Kind, string), string>, id: string)
    requires Resolve(tracked, id).Some?
    ensures FirstKnown(tracked, id, Resolve(tracked, id).value)
  {
  }

  /** The machine, taken through one reply without a crash, has that effect, and routes
      the reply exactly when the outcome says so. */
  lemma ReplyEffectIsRun(w: Wiring, s: State, id: string, luck: Luck)
    requires Enabled(s, Reply(id, luck.readable))
    ensures var (outcome, store, tracked) := ReplyEffect(w, s.store, s.tracked, id, luck);
            var a := Next(w, s, Reply(id, luck.readable));
            var b := if a.handler.LiveHit? then Next(w, a, Publish(luck.publishes))
                     else if a.handler.Found? then Next(w, a, Resume(luck.resumes)) else a;
            var c := if b.handler.Consumed? then Next(w, b, Forget(luck.deletes)) else b;
            && c.store == store && c.tracked == tracked && c.handler == Ready
            && c.routed == s.routed + (if outcome.Live? || outcome.Recovered? then [id] else [])
            && c.dropped == s.dropped + (if outcome.Unpublished? then {id} else {})
            && (outcome.Rejected? <==> c.rejected == s.rejected + [id])
  {
    ResolveKnows(s.tracked, id);
    assert |s.rejected + [id]| != |s.rejected| && s.routed + [] == s.routed;
    hide Resolve;
  }

  datatype Maps = Maps(question: map<string, string>, stepDecision: map<string, string>,
                       planReview: map<string, string>, permission: map<string, string>)

  function MapOf(m: Maps, kind: Kind): map<string, string> {
    match kind
    case Question => m.question
    case StepDecision => m.stepDecision
    case PlanReview => m.planReview
    case Permission => m.permission
  }

  function Keyed(kind: Kind, m: map<string, string>): set<(Kind, string)> {
    set id | id in m :: (kind, id)
  }

  ghost function Merged(m: Maps): (r: map<(Kind, string), string>)
    ensures forall k, id :: (k, id) in r <==> id in MapOf(m, k)
    ensures forall k, id :: (k, id) in r ==> r[(k, id)] == MapOf(m, k)[id]
  {
    map key: (Kind, string) | key in Keyed(Question, m.question) + Keyed(StepDecision, m.stepDecision)
                                   + Keyed(PlanReview, m.planReview) + Keyed(Permission, m.permission)
      :: MapOf(m, key.0)[key.1]
  }

  lemma MergedAt(m: Maps, kind: Kind, id: string)
    ensures (kind, id) in Merged(m) <==> id in MapOf(m, kind)
    ensures id in MapOf(m, kind) ==> Merged(m)[(kind, id)] == MapOf(m, kind)[id]
  {
  }

  /** A Resolve method takes its own entry out, if it has a usable one. */
  ghost predicate Took(before: map<(Kind, string), string>, after: map<(Kind, string), string>, kind: Kind, id: string,
                       engineId: string)
  {
    if engineId == "" then after == before
    else Knows(before, kind, id) && engineId == before[(kind, id)] && after == before - {(kind, id)}
  }

  /** Only the map of one kind changes. */
  ghost predicate SameBut(a: Maps, b: Maps, kind: Kind) {
    forall k :: k != kind ==> MapOf(a, k) == MapOf(b, k)
  }

  lemma MergedSet(a: Maps, b: Maps, kind: Kind, id: string, engineId: string)
    requires SameBut(a, b, kind) && MapOf(b, kind) == MapOf(a, kind)[id := engineId]
    ensures Merged(b) == Merged(a)[(kind, id) := engineId]
  {
    hide Merged, MapOf;
    var r, e := Merged(b), Merged(a)[(kind, id) := engineId];
    forall key ensures key in r <==> key in e {
      assert key == (key.0, key.1);
    }
    forall key | key in r ensures r[key] == e[key] {
      assert key == (key.0, key.1);
    }
  }

  lemma MergedRemove(a: Maps, b: Maps, kind: Kind, id: string)
    requires SameBut(a, b, kind) && MapOf(b, kind) == MapOf(a, kind) - {id}
    ensures Merged(b) == Merged(a) - {(kind, id)}
  {
    hide Merged, MapOf;
    var r, e := Merged(b), Merged(a) - {(kind, id)};
    forall key ensures key in r <==> key in e {
      assert key == (key.0, key.1);
    }
    forall key | key in r ensures r[key] == e[key] {
      assert key == (key.0, key.1);
    }
  }

  class Channel {
    const wiring: Wiring
    var store: map<string, int>
    var askQuestion: map<string, string>
    var pendingStepDecision: map<string, string>
    var pendingPlan: map<string, string>
    var pendingPerm: map<string, string>

    constructor (wiring: Wiring, store: map<string, int>)
      ensures this.wiring == wiring && this.store == store && Tracked() == map[]
    {
      this.wiring, this.store := wiring, store;
      askQuestion, pendingStepDecision, pendingPlan, pendingPerm := map[], map[], map[], map[];
    }

    /** The four maps as one. */
    ghost function Tracked(): map<(Kind, string), string>
      reads this
    {
      Merged(All())
    }

    ghost function All(): Maps
      reads this
    {
      Maps(askQuestion, pendingStepDecision, pendingPlan, pendingPerm)
    }

    /** A prompt event: nothing is sent or remembered unless the wait could be saved. */
    method EmitPrompt(id: string, kind: Kind, engineId: string, now: int, ok: bool) returns (sent: bool)
      modifies this
      ensures sent <==> !wiring.prompter || ok
      ensures store == if wiring.prompter && ok then old(store)[id := now + DEFAULT_EXPIRY] else old(store)
      ensures Tracked() == if sent then old(Tracked())[(kind, id) := engineId] else old(Tracked())
    {
      hide Merged;
      if wiring.prompter {
        if !ok {
          return false;
        }
        store := store[id := now + DEFAULT_EXPIRY];
      }
      Remember(id, kind, engineId);
      sent := true;
    }

    method Remember(id: string, kind: Kind, engineId: string)
      modifies this`askQuestion, this`pendingStepDecision, this`pendingPlan, this`pendingPerm
      ensures Tracked() == old(Tracked())[(kind, id) := engineId]
    {
      hide Merged;
      ghost var before := All();
      match kind {
        case Question => askQuestion := askQuestion[id := engineId];
        case StepDecision => pendingStepDecision := pendingStepDecision[id := engineId];
        case PlanReview => pendingPlan := pendingPlan[id := engineId];
        case Permission => pendingPerm := pendingPerm[id := engineId];
      }
      MergedSet(before, All(), kind, id, engineId);
    }

    method ForgetWait(id: string, deletes: bool)
      modifies this`store
      ensures store == if wiring.prompter && deletes then old(store) - {id} else old(store)
      ensures Tracked() == old(Tracked())
    {
      if wiring.prompter && deletes {
        store := store - {id};
      }
    }

    method ResolveAskQuestion(id: string) returns (engineId: string)
      modifies this`askQuestion
      ensures engineId != "" <==> Knows(old(Tracked()), Question, id)
      ensures Took(old(Tracked()), Tracked(), Question, id, engineId)
    {
      hide Merged;
      ghost var before := All();
      MergedAt(before, Question, id);
      engineId := if id in askQuestion then askQuestion[id] else "";
      if engineId != "" {
        askQuestion := askQuestion - {id};
        MergedRemove(before, All(), Question, id);
      }
    }

    method ResolveStepDecision(id: string) returns (engineId: string)
      modifies this`pendingStepDecision
      ensures engineId != "" <==> Knows(old(Tracked()), StepDecision, id)
      ensures Took(old(Tracked()), Tracked(), StepDecision, id, engineId)
    {
      hide Merged;
      ghost var before := All();
      MergedAt(before, StepDecision, id);
      engineId := if id in pendingStepDecision then pendingStepDecision[id] else "";
      if engineId != "" {
        pendingStepDecision := pendingStepDecision - {id};
        MergedRemove(before, All(), StepDecision, id);
      }
    }

    method ResolvePlanReview(id: string) returns (engineId: string)
      modifies this`pendingPlan
      ensures engineId != "" <==> Knows(old(Tracked()), PlanReview, id)
      ensures Took(old(Tracked()), Tracked(), PlanReview, id, engineId)
    {
      hide Merged;
      ghost var before := All();
      MergedAt(before, PlanReview, id);
      engineId := if id in pendingPlan then pendingPlan[id] else "";
      if engineId != "" {
        pendingPlan := pendingPlan - {id};
        MergedRemove(before, All(), PlanReview, id);
      }
    }

    method ResolvePermission(id: string) returns (engineId: string)
      modifies this`pendingPerm
      ensures engineId != "" <==> Knows(old(Tracked()), Permission, id)
      ensures Took(old(Tracked()), Tracked(), Permission, id, engineId)
    {
      hide Merged;
      ghost var before := All();
      MergedAt(before, Permission, id);
      engineId := if id in pendingPerm then pendingPerm[id] else "";
      if engineId != "" {
        pendingPerm := pendingPerm - {id};
        MergedRemove(before, All(), Permission, id);
      }
    }

    /** A live path: the wait is forgotten whether or not the reply could be published. */
    method PublishAndForget(id: string, kind: Kind, engineId: string, luck: Luck) returns (outcome: Outcome)
      modifies this`store
      ensures outcome == if luck.publishes then Live(kind, engineId) else Unpublished(kind, engineId)
      ensures store == if wiring.prompter && luck.deletes then old(store) - {id} else old(store)
      ensures Tracked() == old(Tracked())
    {
      outcome := if luck.publishes then Live(kind, engineId) else Unpublished(kind, engineId);
      ForgetWait(id, luck.deletes);
    }

    /** handlePromptResponse. */
    method HandlePromptResponse(id: string, luck: Luck) returns (outcome: Outcome)
      modifies this
      ensures (outcome, store, Tracked()) == ReplyEffect(wiring, old(store), old(Tracked()), id, luck)
      ensures Answered(wiring, old(store), old(Tracked()), id, luck, outcome, store, Tracked())
    {
      ReplyEffectReads(wiring, store, Tracked(), id, luck);
      hide Tracked, Answered;
      var toolUseId := ResolveAskQuestion(id);
      if toolUseId != "" {
        outcome := PublishAndForget(id, Question, toolUseId, luck);
        return;
      }
      var decisionId := ResolveStepDecision(id);
      if decisionId != "" {
        outcome := PublishAndForget(id, StepDecision, decisionId, luck);
        return;
      }
      var planId := ResolvePlanReview(id);
      if planId != "" {
        outcome := PublishAndForget(id, PlanReview, planId, luck);
        return;
      }
      var permId := ResolvePermission(id);
      if permId != "" {
        outcome := PublishAndForget(id, Permission, permId, luck);
        return;
      }
      if wiring.prompter && wiring.resumer {
        if luck.readable && id in store {
          if !luck.resumes {
            return ResumeFailed;
          }
          ForgetWait(id, luck.deletes);
          return Recovered;
        }
      }
      return Rejected;
    }

    /** Other prompts and other replies, of any number. */
    method Serve(traffic: seq<Traffic>, ghost mine: string)
      requires forall x :: x in traffic ==> x.id != mine
      modifies this
      ensures SameEntries(old(Tracked()), Tracked(), mine)
    {
      hide Tracked, Answered;
      SameEntriesRefl(Tracked(), mine);
      for i := 0 to |traffic|
        invariant SameEntries(old(Tracked()), Tracked(), mine)
      {
        ghost var before := Tracked();
        assert traffic[i] in traffic;
        match traffic[i] {
          case Emitted(id, kind, engineId, now, ok) =>
            var sent := EmitPrompt(id, kind, engineId, now, ok);
          case Replied(id, luck) =>
            ReplyKeepsOthers(wiring, store, before, id, luck, mine);
            var outcome := HandlePromptResponse(id, luck);
        }
        hide ReplyEffect;
        SameEntriesTrans(old(Tracked()), before, Tracked(), mine);
      }
    }

    /** A prompt that was sent, and the reply to it: whatever other prompts and replies come
        in between, the engine is given the id it is waiting under, and the kind of the prompt. */
    method PromptAndReply(id: string, kind: Kind, engineId: string, now: int, ok: bool, traffic: seq<Traffic>, luck: Luck)
      returns (sent: bool, outcome: Outcome)
      requires engineId != "" && forall k :: (k, id) !in Tracked()
      requires forall x :: x in traffic ==> x.id != id
      modifies this
      ensures sent <==> !wiring.prompter || ok
      ensures sent ==> outcome == if luck.publishes then Live(kind, engineId) else Unpublished(kind, engineId)
    {
      hide Tracked;
      sent := EmitPrompt(id, kind, engineId, now, ok);
      ghost var shown := Tracked();
      Serve(traffic, id);
      ghost var asked := Tracked();
      outcome := HandlePromptResponse(id, luck);
      hide ReplyEffect;
      if sent {
        OnlyEntry(shown, asked, id, kind, engineId);
      }
    }
  }

  /** What else happens on the channel. */
  datatype Traffic =
    | Emitted(id: string, kind: Kind, engineId: string, now: int, ok: bool)
    | Replied(id: string, luck: Luck)

  /** The entries of one id are the same. */
  ghost predicate SameEntries(a: map<(Kind, string), string>, b: map<(Kind, string), string>, id: string) {
    forall k :: ((k, id) in a <==> (k, id) in b) && ((k, id) in a && (k, id) in b ==> a[(k, id)] == b[(k, id)])
  }

  lemma SameEntriesRefl(a: map<(Kind, string), string>, id: string)
    ensures SameEntries(a, a, id)
  {
  }

  lemma SameEntriesTrans(a: map<(Kind, string), string>, b: map<(Kind, string), string>, c: map<(Kind, string), string>, id: string)
    requires SameEntries(a, b, id) && SameEntries(b, c, id)
    ensures SameEntries(a, c, id)
  {
  }

  lemma ReplyKeepsOthers(w: Wiring, store: map<string, int>, tracked: map<(Kind, string), string>, id: string, luck: Luck,
                         other: string)
    requires id != other
    ensures SameEntries(tracked, ReplyEffect(w, store, tracked, id, luck).2, other)
  {
  }

  /** With one entry for the id, only that can be the first that is known. */
  lemma OnlyEntry(shown: map<(Kind, string), string>, asked: map<(Kind, string), string>, id: string, kind: Kind, engineId: string)
    requires SameEntries(shown, asked, id) && engineId != ""
    requires forall k :: (k, id) in shown <==> k == kind
    requires shown[(kind, id)] == engineId
    ensures FirstKnown(asked, id, kind) && !NobodyKnows(asked, id) && asked[(kind, id)] == engineId
    ensures forall k :: FirstKnown(asked, id, k) ==> k == kind
  {
  }
}

/** The hot-swappable provider manager (internal/provider/manager/manager.go).

    Four linked structures change together: the provider tree, the agent's
    chain, the adapter cache and the live dispatcher. `Valid` says how they
    agree; every operation is one critical section under the manager's mutex. */
module ProviderManager {
  import opened Common
  import opened ChainRef
  import opened FailoverDispatch

  // ----- Configuration -----

  datatype EndpointConfig = EndpointConfig(
    model: string, maxTokens: int, temperature: real, enableThinking: Option<bool>,
    contextWindow: int, disabled: bool, modelType: seq<string>, group: string)

  datatype ProviderConfig = ProviderConfig(
    kind: string, baseURL: string, apiKey: string, disabled: bool,
    endpoints: map<string, EndpointConfig>)

  type Providers = map<string, ProviderConfig>

  datatype AgentConfig = AgentConfig(
    primary: string, fallbackChain: seq<string>, imageGeneration: string, videoGeneration: string,
    maxTokens: int, temperature: real, contextWindow: int, maxTurns: int, maxToolCalls: int,
    thinkingIntensity: string)

  function Chain(agent: AgentConfig): (c: seq<string>)
    ensures Distinct(c)
  {
    Effective(agent.primary, agent.fallbackChain)
  }

  function SetChain(agent: AgentConfig, chain: seq<string>): AgentConfig {
    agent.(primary := PrimaryOf(chain), fallbackChain := FallbackOf(chain))
  }

  predicate Exists(ps: Providers, r: Ref) {
    r.prov in ps && r.ep in ps[r.prov].endpoints
  }

  predicate Resolves(ps: Providers, entry: string) {
    Parse(entry).Some? && Exists(ps, Parse(entry).value)
  }

  predicate Usable(ps: Providers, r: Ref) {
    Exists(ps, r) && !ps[r.prov].disabled && !ps[r.prov].endpoints[r.ep].disabled
  }

  /** Go's byte-wise string order. */
  predicate StringLeq(a: string, b: string) {
    a == [] || (b != [] && (a[0] < b[0] || (a[0] == b[0] && StringLeq(a[1..], b[1..]))))
  }

  predicate EnabledName(eps: map<string, EndpointConfig>, e: string) {
    e in eps && !eps[e].disabled
  }

  /** The alphabetically first enabled endpoint, or "" when there is none. */
  ghost predicate IsFirstEnabled(eps: map<string, EndpointConfig>, first: string) {
    if exists e :: EnabledName(eps, e) then
      EnabledName(eps, first) && forall e :: EnabledName(eps, e) ==> StringLeq(first, e)
    else first == ""
  }

  predicate TypeAllowed(kind: string) {
    kind == "openai" || kind == "anthropic" || kind == "gemini"
  }

  function Patch<T>(current: T, p: Option<T>): T {
    match p case Some(v) => v case None => current
  }

  datatype CredsPatch = CredsPatch(kind: Option<string>, baseURL: Option<string>,
                                   apiKey: Option<string>, disabled: Option<bool>)

  const NO_CREDS := CredsPatch(None, None, None, None)

  function PatchCreds(p: ProviderConfig, patch: CredsPatch): ProviderConfig {
    p.(kind := Patch(p.kind, patch.kind), baseURL := Patch(p.baseURL, patch.baseURL),
       apiKey := Patch(p.apiKey, patch.apiKey), disabled := Patch(p.disabled, patch.disabled))
  }

  datatype EndpointPatch = EndpointPatch(
    model: Option<string>, maxTokens: Option<int>, temperature: Option<real>, enableThinking: Option<bool>,
    disabled: Option<bool>, modelType: Option<seq<string>>, group: Option<string>)

  const NO_ENDPOINT := EndpointPatch(None, None, None, None, None, None, None)

  function PatchEndpoint(e: EndpointConfig, patch: EndpointPatch): EndpointConfig {
    e.(model := Patch(e.model, patch.model), maxTokens := Patch(e.maxTokens, patch.maxTokens),
       temperature := Patch(e.temperature, patch.temperature),
       enableThinking := if patch.enableThinking.Some? then patch.enableThinking else e.enableThinking,
       disabled := Patch(e.disabled, patch.disabled), modelType := Patch(e.modelType, patch.modelType),
       group := Patch(e.group, patch.group))
  }

  datatype AgentPatch = AgentPatch(
    primary: Option<string>, fallbackChain: Option<seq<string>>, imageGeneration: Option<string>,
    videoGeneration: Option<string>, maxTokens: Option<int>, temperature: Option<real>,
    contextWindow: Option<int>, maxTurns: Option<int>, maxToolCalls: Option<int>,
    thinkingIntensity: Option<string>)

  const NO_AGENT := AgentPatch(None, None, None, None, None, None, None, None, None, None)

  function PatchAgent(a: AgentConfig, p: AgentPatch): AgentConfig {
    AgentConfig(Patch(a.primary, p.primary), Patch(a.fallbackChain, p.fallbackChain),
                Patch(a.imageGeneration, p.imageGeneration), Patch(a.videoGeneration, p.videoGeneration),
                Patch(a.maxTokens, p.maxTokens), Patch(a.temperature, p.temperature),
                Patch(a.contextWindow, p.contextWindow), Patch(a.maxTurns, p.maxTurns),
                Patch(a.maxToolCalls, p.maxToolCalls), Patch(a.thinkingIntensity, p.thinkingIntensity))
  }

  datatype Error =
    | EmptyPatch | NameRequired | BadName | TypeNotAllowed | ModelRequired
    | UnknownProvider | ProviderExists | UnknownEndpoint | EndpointExists
    | LastChainEntry | BadChainEntry(entry: string) | DuplicatesPrimary(entry: string)
    | BadLimit | EmptyChain | BuildFailed | RebuildFailed

  // ----- Adapters -----

  /** What an adapter is built from: the provider's credentials, the endpoint and
      the agent-level defaults that are frozen into it. */
  datatype BuildInput = BuildInput(ref: Ref, kind: string, baseURL: string, apiKey: string, disabled: bool,
                                   endpoint: EndpointConfig, maxTokens: int, temperature: real)

  function InputFor(ps: Providers, agent: AgentConfig, r: Ref): BuildInput
    requires Exists(ps, r)
  {
    var p := ps[r.prov];
    BuildInput(r, p.kind, p.baseURL, p.apiKey, p.disabled, p.endpoints[r.ep], agent.maxTokens, agent.temperature)
  }

  /** The adapter has the provider's present credentials, the endpoint's present
      settings and the agent's present defaults. */
  predicate BuiltFrom(b: BuildInput, ps: Providers, agent: AgentConfig, r: Ref) {
    && Exists(ps, r) && b.ref == r && b.endpoint == ps[r.prov].endpoints[r.ep]
    && b.kind == ps[r.prov].kind && b.baseURL == ps[r.prov].baseURL && b.apiKey == ps[r.prov].apiKey
    && b.disabled == ps[r.prov].disabled && b.maxTokens == agent.maxTokens && b.temperature == agent.temperature
  }

  lemma InputReads(ps: Providers, agent: AgentConfig, r: Ref)
    requires Exists(ps, r)
    ensures BuiltFrom(InputFor(ps, agent, r), ps, agent, r)
  {
  }

  class Adapter {
    const built: BuildInput
    var closed: bool

    constructor (built: BuildInput)
      ensures this.built == built && !closed
    {
      this.built := built;
      closed := false;
    }

    method Shutdown()
      modifies this
      ensures closed
    {
      closed := true;
    }
  }

  /** Whether the n-th invocation of the adapter builder succeeds on an input. */
  type Builder = (nat, BuildInput) -> bool

  ghost predicate SomeBuildFails(builder: Builder, from: nat, to: nat) {
    exists n: nat, input :: from <= n < to && !builder(n, input)
  }

  type Cache = map<string, Adapter>

  function KeyOf(entry: string): string {
    match Parse(entry) case Some(r) => Format(r) case None => entry
  }

  // ----- The invariant, part by part -----

  ghost predicate WellNamed(ps: Providers) {
    forall p :: p in ps ==> WellNamedProvider(p)
  }

  /** Every cached adapter is the one the builder would produce now. */
  ghost predicate Coherent(ps: Providers, agent: AgentConfig, cache: Cache) {
    forall k :: k in cache ==>
      var b := cache[k].built;
      k == Format(b.ref) && Exists(ps, b.ref) && b == InputFor(ps, agent, b.ref)
  }

  predicate AllResolve(ps: Providers, agent: AgentConfig) {
    forall c :: c in Chain(agent) ==> Resolves(ps, c)
  }

  ghost predicate Routable(ps: Providers, agent: AgentConfig, cache: Cache) {
    forall c :: c in Chain(agent) ==> Resolves(ps, c) && KeyOf(c) in cache
  }

  /** Tree, chain and cache agree: what a rebuild needs in order not to fail. */
  ghost predicate Core(ps: Providers, agent: AgentConfig, cache: Cache) {
    WellNamed(ps) && Coherent(ps, agent, cache) && Routable(ps, agent, cache)
  }

  predicate Off(ps: Providers, entry: string)
    requires Resolves(ps, entry)
  {
    var r := Parse(entry).value;
    ps[r.prov].disabled || ps[r.prov].endpoints[r.ep].disabled
  }

  /** The live dispatcher is the one the chain, the tree and the cache describe. */
  ghost predicate Live(current: Failover?<Adapter>, ps: Providers, agent: AgentConfig, cache: Cache)
    requires Routable(ps, agent, cache)
  {
    var chain := Chain(agent);
    if chain == [] then current == null
    else
      && current != null && current.Valid() && current.names == chain
      && forall i :: 0 <= i < |chain| ==>
           chain[i] in chain && current.disabled[i] == Off(ps, chain[i]) && current.providers[i] == cache[KeyOf(chain[i])]
  }

  /** Entry i of a dispatcher under construction. */
  ghost predicate Wired(ps: Providers, cache: Cache, entry: string, a: Adapter, off: bool) {
    Resolves(ps, entry) && KeyOf(entry) in cache && a == cache[KeyOf(entry)] && off == Off(ps, entry)
  }

  /** The cache has only gained entries. */
  ghost predicate Grown(before: Cache, after: Cache) {
    forall k :: k in before ==> k in after && after[k] == before[k]
  }

  lemma GrownRefl(a: Cache)
    ensures Grown(a, a)
  {
  }

  lemma GrownTrans(a: Cache, b: Cache, c: Cache)
    requires Grown(a, b) && Grown(b, c)
    ensures Grown(a, c)
  {
  }

  lemma EmptyCache(ps: Providers, agent: AgentConfig)
    ensures Coherent(ps, agent, map[])
  {
  }

  /** What the chain as a whole says of one of its entries. */
  lemma EntryFacts(ps: Providers, agent: AgentConfig, cache: Cache, entry: string)
    requires entry in Chain(agent)
    ensures Routable(ps, agent, cache) ==> Resolves(ps, entry) && KeyOf(entry) in cache
    ensures AllResolve(ps, agent) ==> Resolves(ps, entry)
  {
  }

  ghost predicate AllOpen(cache: Cache)
    reads cache.Values
  {
    forall k :: k in cache ==> !cache[k].closed
  }

  // ----- Steps of the configuration, as values -----

  /** Disabling a provider takes its entries out of the chain. */
  function AfterProviderDisable(agent: AgentConfig, prov: string, disabling: bool): AgentConfig {
    var kept := Without(Chain(agent), ToProvider(prov));
    if disabling && |kept| < |Chain(agent)| then SetChain(agent, kept) else agent
  }

  function AfterEndpointDisable(agent: AgentConfig, r: Ref, disabling: bool): AgentConfig {
    var kept := Without(Chain(agent), ToRef(r));
    if disabling && |kept| < |Chain(agent)| then SetChain(agent, kept) else agent
  }

  /** An empty chain is filled with an enabled endpoint. */
  function AfterAutoFill(ps: Providers, agent: AgentConfig, r: Ref): AgentConfig {
    if Chain(agent) == [] && Usable(ps, r) then SetChain(agent, [Format(r)]) else agent
  }

  /** The agent after a credentials patch of provider `name`, with the endpoint it contributes. */
  function AfterCreds(agent: AgentConfig, name: string, disabling: bool, first: string): AgentConfig {
    var kept := AfterProviderDisable(agent, name, disabling);
    if first != "" then SetChain(kept, [Format(Ref(name, first))]) else kept
  }

  /** The endpoint an enabled provider contributes to a chain that is empty by then. */
  ghost predicate FillChoice(agent: AgentConfig, name: string, p: ProviderConfig, disabling: bool, first: string) {
    if !p.disabled && Chain(AfterProviderDisable(agent, name, disabling)) == [] then IsFirstEnabled(p.endpoints, first)
    else first == ""
  }

  /** Entries that name an endpoint in another form than "provider:endpoint". */
  predicate HasLegacyRef(chain: seq<string>, r: Ref) {
    exists c :: c in chain && RefersTo(c, r) && c != Format(r)
  }

  lemma SetChainReads(agent: AgentConfig, chain: seq<string>)
    requires Distinct(chain) && "" !in chain
    ensures Chain(SetChain(agent, chain)) == chain
  {
    WriteThenReadChain(chain);
  }

  lemma DisableKeepsOthers(agent: AgentConfig, drop: string -> bool)
    requires "" !in Chain(agent)
    ensures Chain(SetChain(agent, Without(Chain(agent), drop))) == Without(Chain(agent), drop)
  {
    WithoutDistinct(Chain(agent), drop);
    SetChainReads(agent, Without(Chain(agent), drop));
  }

  lemma NoEmptyEntry(ps: Providers, agent: AgentConfig, cache: Cache)
    requires Routable(ps, agent, cache)
    ensures "" !in Chain(agent)
  {
  }

  lemma FillReads(agent: AgentConfig, r: Ref)
    ensures Chain(SetChain(agent, [Format(r)])) == [Format(r)]
  {
    SetChainReads(agent, [Format(r)]);
  }

  // ----- What the steps do to chain and tree, stated outright -----

  /** Exactly the entries of one provider are gone, and the rest keeps its order. */
  ghost predicate WithoutProvider(before: seq<string>, after: seq<string>, prov: string) {
    && (forall c :: c in after <==> c in before && !(Parse(c).Some? && Parse(c).value.prov == prov))
    && Distinct(after) && InOrder(before, after)
  }

  /** Exactly the entries that name one endpoint are gone, and the rest keeps its order. */
  ghost predicate WithoutRef(before: seq<string>, after: seq<string>, r: Ref) {
    && (forall c :: c in after <==> c in before && Parse(c) != Some(r))
    && Distinct(after) && InOrder(before, after)
  }

  /** Nothing of the agent but its chain has changed. */
  predicate SameButChain(before: AgentConfig, after: AgentConfig) {
    before == after.(primary := before.primary, fallbackChain := before.fallbackChain)
  }

  /** The chain after a credentials patch: a provider that is being disabled loses its
      entries; a chain with entries is not touched otherwise; and an empty one gets the
      first enabled endpoint of an enabled provider, if it has a named one. */
  ghost predicate CredsChain(before: seq<string>, after: seq<string>, name: string, p: ProviderConfig, disabling: bool) {
    if disabling then WithoutProvider(before, after, name)
    else if before != [] then after == before
    else exists first :: IsFirstEnabled(p.endpoints, first) &&
                         after == if p.disabled || first == "" then [] else [name + ":" + first]
  }

  /** Taking entries out of the chain leaves the others, in order, and the rest of the agent alone. */
  lemma TakenOut(agent: AgentConfig, drop: string -> bool)
    requires "" !in Chain(agent)
    ensures var kept := Without(Chain(agent), drop);
            && Chain(SetChain(agent, kept)) == kept && SameButChain(agent, SetChain(agent, kept))
            && Distinct(kept) && InOrder(Chain(agent), kept)
  {
    DisableKeepsOthers(agent, drop);
    WithoutInOrder(Chain(agent), drop);
    WithoutDistinct(Chain(agent), drop);
  }

  lemma OnlyChainSet(agent: AgentConfig, chain: seq<string>)
    ensures SameButChain(agent, SetChain(agent, chain))
  {
  }

  /** The same when the chain is only written back if something was dropped. */
  lemma Dropped(agent: AgentConfig, drop: string -> bool, after: AgentConfig)
    requires "" !in Chain(agent)
    requires var kept := Without(Chain(agent), drop);
             after == if |kept| < |Chain(agent)| then SetChain(agent, kept) else agent
    ensures Chain(after) == Without(Chain(agent), drop) && SameButChain(agent, after)
    ensures Distinct(Chain(after)) && InOrder(Chain(agent), Chain(after))
    ensures forall c :: c in Chain(after) <==> c in Chain(agent) && !drop(c)
  {
    TakenOut(agent, drop);
    hide Chain, InOrder, SetChain;
  }

  lemma ProviderTakenOut(agent: AgentConfig, prov: string)
    requires "" !in Chain(agent)
    ensures var after := AfterProviderDisable(agent, prov, true);
            WithoutProvider(Chain(agent), Chain(after), prov) && SameButChain(agent, after)
  {
    var after := AfterProviderDisable(agent, prov, true);
    Dropped(agent, ToProvider(prov), after);
    hide Chain, Parse, InOrder, SetChain, Without, AfterProviderDisable, SameButChain, Distinct;
  }

  lemma RefTakenOut(agent: AgentConfig, r: Ref)
    requires "" !in Chain(agent)
    ensures var after := AfterEndpointDisable(agent, r, true);
            WithoutRef(Chain(agent), Chain(after), r) && SameButChain(agent, after)
  {
    var after := AfterEndpointDisable(agent, r, true);
    Dropped(agent, ToRef(r), after);
    hide Chain, Parse, InOrder, SetChain, Without, AfterEndpointDisable, SameButChain, Distinct;
  }

  lemma CredsChainHolds(agent: AgentConfig, name: string, p: ProviderConfig, disabling: bool, first: string)
    requires "" !in Chain(agent) && FillChoice(agent, name, p, disabling, first) && (disabling ==> p.disabled)
    ensures CredsChain(Chain(agent), Chain(AfterCreds(agent, name, disabling, first)), name, p, disabling)
    ensures SameButChain(agent, AfterCreds(agent, name, disabling, first))
  {
    if disabling {
      ProviderTakenOut(agent, name);
      hide Chain, WithoutProvider, AfterProviderDisable, SetChain, SameButChain;
    } else {
      assert AfterProviderDisable(agent, name, false) == agent;
      FillReads(agent, Ref(name, first));
      OnlyChainSet(agent, [Format(Ref(name, first))]);
      SomeFirstEnabled(p.endpoints);
      hide Chain, IsFirstEnabled, AfterProviderDisable, SetChain, WithoutProvider;
    }
  }

  /** There always is a first enabled endpoint name, possibly none. */
  lemma SomeFirstEnabled(eps: map<string, EndpointConfig>)
    ensures exists first :: IsFirstEnabled(eps, first)
  {
    var on := set e | e in eps && EnabledName(eps, e);
    if on == {} {
      assert forall e :: EnabledName(eps, e) ==> e in on;
      assert IsFirstEnabled(eps, "");
    } else {
      var first := LeastName(on);
      assert forall e :: EnabledName(eps, e) ==> e in on;
      assert IsFirstEnabled(eps, first);
    }
  }

  lemma {:induction false} LeastName(names: set<string>) returns (least: string)
    requires names != {}
    ensures least in names && forall e :: e in names ==> StringLeq(least, e)
    decreases |names|
  {
    var x :| x in names;
    StringLeqTotal(x, x);
    if names == {x} {
      least := x;
    } else {
      var rest := names - {x};
      var y := LeastName(rest);
      StringLeqTotal(x, y);
      least := if StringLeq(x, y) then x else y;
      forall e | e in names ensures StringLeq(least, e) {
        if e != x && StringLeq(x, y) {
          StringLeqTransitive(x, y, e);
        }
      }
    }
  }

  /** The chain after an endpoint was stored: one that is being disabled loses its entries;
      a chain with entries is not touched otherwise; an empty one gets an enabled endpoint
      of an enabled provider. */
  ghost predicate EndpointChain(before: seq<string>, after: seq<string>, ps: Providers, r: Ref, disabling: bool) {
    if disabling then WithoutRef(before, after, r)
    else if before != [] then after == before
    else after == if Exists(ps, r) && !ps[r.prov].disabled && !ps[r.prov].endpoints[r.ep].disabled
                  then [r.prov + ":" + r.ep] else []
  }

  lemma EndpointChainHolds(agent: AgentConfig, ps: Providers, r: Ref, disabling: bool)
    requires "" !in Chain(agent) && Exists(ps, r) && (disabling ==> ps[r.prov].endpoints[r.ep].disabled)
    ensures var after := AfterAutoFill(ps, AfterEndpointDisable(agent, r, disabling), r);
            EndpointChain(Chain(agent), Chain(after), ps, r, disabling) && SameButChain(agent, after)
  {
    if disabling {
      RefTakenOut(agent, r);
      hide Chain, WithoutRef, AfterEndpointDisable, SetChain, SameButChain;
    } else {
      assert AfterEndpointDisable(agent, r, false) == agent;
      FillReads(agent, r);
      OnlyChainSet(agent, [Format(r)]);
      hide Chain, AfterEndpointDisable, SetChain, WithoutRef;
    }
  }

  lemma FilledChainHolds(agent: AgentConfig, ps: Providers, r: Ref)
    requires "" !in Chain(agent) && Exists(ps, r)
    ensures EndpointChain(Chain(agent), Chain(AfterAutoFill(ps, agent, r)), ps, r, false)
    ensures SameButChain(agent, AfterAutoFill(ps, agent, r))
  {
    EndpointChainHolds(agent, ps, r, false);
  }

  /** A patched endpoint, seen in tree and chain. */
  lemma StoredChainHolds(ps: Providers, agent: AgentConfig, r: Ref, patch: EndpointPatch)
    requires "" !in Chain(agent) && Exists(ps, r)
    ensures var ep := PatchEndpoint(ps[r.prov].endpoints[r.ep], patch);
            var ps' := WithEndpoint(ps, r, ep);
            var after := AfterAutoFill(ps', AfterEndpointDisable(agent, r, patch.disabled == Some(true)), r);
            && OneEndpoint(ps, ps', r, Some(ep)) && SameButChain(agent, after)
            && EndpointChain(Chain(agent), Chain(after), ps', r, patch.disabled == Some(true))
  {
    var ep := PatchEndpoint(ps[r.prov].endpoints[r.ep], patch);
    EndpointTreeHolds(ps, r, ep);
    EndpointChainHolds(agent, WithEndpoint(ps, r, ep), r, patch.disabled == Some(true));
    hide Chain, OneEndpoint, EndpointChain, SameButChain;
  }

  /** Exactly one string is gone from the chain, and the rest keeps its order. */
  ghost predicate WithoutEntry(before: seq<string>, after: seq<string>, entry: string) {
    && (forall c :: c in after <==> c in before && c != entry)
    && Distinct(after) && InOrder(before, after)
  }

  lemma DeletedChainHolds(agent: AgentConfig, r: Ref)
    requires "" !in Chain(agent)
    ensures WithoutEntry(Chain(agent), Chain(AfterDelete(agent, Format(r))), r.prov + ":" + r.ep)
    ensures SameButChain(agent, AfterDelete(agent, Format(r)))
  {
    ChainInOrder(Chain(agent));
    TakenOut(agent, c => c == Format(r));
    hide Chain, Without, InOrder, SetChain;
  }

  lemma ChainInOrder(chain: seq<string>)
    ensures InOrder(chain, chain)
  {
  }

  /** The tree differs in one endpoint of one provider only, and there it has ep. */
  ghost predicate OneEndpoint(before: Providers, after: Providers, r: Ref, ep: Option<EndpointConfig>) {
    && after.Keys == before.Keys && r.prov in before
    && (forall p :: p in before && p != r.prov ==> after[p] == before[p])
    && after[r.prov] == before[r.prov].(endpoints := after[r.prov].endpoints)
    && (forall e :: e != r.ep ==> (e in after[r.prov].endpoints <==> e in before[r.prov].endpoints))
    && (forall e :: e != r.ep && e in after[r.prov].endpoints ==> after[r.prov].endpoints[e] == before[r.prov].endpoints[e])
    && (if ep.Some? then r.ep in after[r.prov].endpoints && after[r.prov].endpoints[r.ep] == ep.value
        else r.ep !in after[r.prov].endpoints)
  }

  lemma EndpointTreeHolds(ps: Providers, r: Ref, ep: EndpointConfig)
    requires r.prov in ps
    ensures OneEndpoint(ps, WithEndpoint(ps, r, ep), r, Some(ep)) && OneEndpoint(ps, WithoutEndpoint(ps, r), r, None)
  {
  }

  /** A field that a patch sets has the new value, and any other its old one. */
  predicate Patched<T(==)>(before: T, p: Option<T>, after: T) {
    if p.Some? then after == p.value else after == before
  }

  lemma CredsPatched(p: ProviderConfig, patch: CredsPatch)
    ensures var q := PatchCreds(p, patch);
            && Patched(p.kind, patch.kind, q.kind) && Patched(p.baseURL, patch.baseURL, q.baseURL)
            && Patched(p.apiKey, patch.apiKey, q.apiKey) && Patched(p.disabled, patch.disabled, q.disabled)
            && q.endpoints == p.endpoints
  {
  }

  lemma EndpointPatched(e: EndpointConfig, patch: EndpointPatch)
    ensures var f := PatchEndpoint(e, patch);
            && Patched(e.model, patch.model, f.model) && Patched(e.maxTokens, patch.maxTokens, f.maxTokens)
            && Patched(e.temperature, patch.temperature, f.temperature) && Patched(e.disabled, patch.disabled, f.disabled)
            && Patched(e.modelType, patch.modelType, f.modelType) && Patched(e.group, patch.group, f.group)
            && f.enableThinking == (if patch.enableThinking.Some? then patch.enableThinking else e.enableThinking)
            && f.contextWindow == e.contextWindow
  {
  }

  lemma AgentPatched(a: AgentConfig, p: AgentPatch)
    ensures var b := PatchAgent(a, p);
            && Patched(a.primary, p.primary, b.primary) && Patched(a.fallbackChain, p.fallbackChain, b.fallbackChain)
            && Patched(a.imageGeneration, p.imageGeneration, b.imageGeneration)
            && Patched(a.videoGeneration, p.videoGeneration, b.videoGeneration)
            && Patched(a.maxTokens, p.maxTokens, b.maxTokens) && Patched(a.temperature, p.temperature, b.temperature)
            && Patched(a.contextWindow, p.contextWindow, b.contextWindow) && Patched(a.maxTurns, p.maxTurns, b.maxTurns)
            && Patched(a.maxToolCalls, p.maxToolCalls, b.maxToolCalls)
            && Patched(a.thinkingIntensity, p.thinkingIntensity, b.thinkingIntensity)
  {
  }

  /** The byte order: a string precedes its extensions, and otherwise the first
      difference decides. */
  lemma {:induction false} StringLeqReads(common: string, a: string, b: string)
    requires a == [] || (b != [] && a[0] < b[0])
    ensures StringLeq(common + a, common + b)
    ensures a != b ==> !StringLeq(common + b, common + a)
    decreases |common|
  {
    if common == [] {
      assert common + a == a && common + b == b;
    } else {
      assert (common + a)[1..] == common[1..] + a && (common + b)[1..] == common[1..] + b;
      StringLeqReads(common[1..], a, b);
    }
  }

  /** The adapter routed to for a chain entry was built for that very reference. */
  lemma CachedForRef(ps: Providers, agent: AgentConfig, cache: Cache, entry: string)
    requires Coherent(ps, agent, cache) && WellNamed(ps) && Resolves(ps, entry) && KeyOf(entry) in cache
    ensures cache[KeyOf(entry)].built == InputFor(ps, agent, Parse(entry).value)
  {
    FormatInjective(cache[KeyOf(entry)].built.ref, Parse(entry).value);
  }

  lemma {:induction false} StringLeqTotal(a: string, b: string)
    ensures StringLeq(a, b) || StringLeq(b, a)
    decreases |a|
  {
    if a != [] && b != [] && a[0] == b[0] {
      StringLeqTotal(a[1..], b[1..]);
    }
  }

  lemma {:induction false} StringLeqTransitive(a: string, b: string, c: string)
    requires StringLeq(a, b) && StringLeq(b, c)
    ensures StringLeq(a, c)
    decreases |a|
  {
    if a != [] && a[0] == b[0] == c[0] {
      StringLeqTransitive(a[1..], b[1..], c[1..]);
    }
  }

  lemma DisableKeepsRoutable(ps: Providers, agent: AgentConfig, cache: Cache, drop: string -> bool)
    requires Routable(ps, agent, cache)
    ensures var agent' := SetChain(agent, Without(Chain(agent), drop));
            && Chain(agent') == Without(Chain(agent), drop)
            && Routable(ps, agent', cache)
  {
    NoEmptyEntry(ps, agent, cache);
    DisableKeepsOthers(agent, drop);
  }

  lemma FillKeepsRoutable(ps: Providers, agent: AgentConfig, cache: Cache, r: Ref)
    requires Exists(ps, r) && Format(r) in cache && WellNamedProvider(r.prov) && r.ep != ""
    ensures Chain(SetChain(agent, [Format(r)])) == [Format(r)]
    ensures Routable(ps, SetChain(agent, [Format(r)]), cache)
  {
    FillReads(agent, r);
    ParseFormat(r);
  }

  /** Merging the rebuilt adapters of one provider keeps the cache coherent. */
  lemma MergeCoherent(ps: Providers, agent: AgentConfig, cache: Cache, name: string, p: ProviderConfig, built: Cache)
    requires name in ps && p.endpoints == ps[name].endpoints
    requires Coherent(ps, agent, cache) && Coherent(ps[name := p], agent, built)
    requires forall e :: e in p.endpoints ==> Format(Ref(name, e)) in built
    ensures Coherent(ps[name := p], agent, cache + built)
  {
  }

  /** Only the agent's tuning defaults matter for the cache. */
  lemma TuningKept(ps: Providers, a: AgentConfig, b: AgentConfig, cache: Cache)
    requires Coherent(ps, a, cache) && a.maxTokens == b.maxTokens && a.temperature == b.temperature
    ensures Coherent(ps, b, cache)
  {
  }

  predicate ValidThinking(t: string) {
    t == "" || t == "low" || t == "medium" || t == "high"
  }

  /** The limits of an agent patch are checked only where the patch sets them. */
  function LimitError(p: AgentPatch): Outcome<Error> {
    if p.maxTurns.Some? && p.maxTurns.value < 1 then Fail(BadLimit)
    else if p.maxToolCalls.Some? && p.maxToolCalls.value < 0 then Fail(BadLimit)
    else if p.thinkingIntensity.Some? && !ValidThinking(p.thinkingIntensity.value) then Fail(BadLimit)
    else Pass
  }

  /** The first fallback entry that does not resolve or repeats the primary. */
  function FirstBadEntry(ps: Providers, primary: string, chain: seq<string>): Outcome<Error> {
    if chain == [] then Pass
    else if !Resolves(ps, chain[0]) then Fail(BadChainEntry(chain[0]))
    else if chain[0] == primary then Fail(DuplicatesPrimary(chain[0]))
    else FirstBadEntry(ps, primary, chain[1..])
  }

  function AgentError(ps: Providers, agent: AgentConfig, patch: AgentPatch): Outcome<Error> {
    var next := PatchAgent(agent, patch);
    if next.primary != "" && !Resolves(ps, next.primary) then Fail(BadChainEntry(next.primary))
    else
      var bad := FirstBadEntry(ps, next.primary, next.fallbackChain);
      if bad.Fail? then bad else LimitError(patch)
  }

  lemma {:induction false} NoBadEntry(ps: Providers, primary: string, chain: seq<string>)
    requires FirstBadEntry(ps, primary, chain).Pass?
    ensures forall c :: c in chain ==> Resolves(ps, c) && c != primary
    decreases |chain|
  {
    if chain != [] {
      NoBadEntry(ps, primary, chain[1..]);
    }
  }

  lemma {:induction false} NoBadEntryIff(ps: Providers, primary: string, chain: seq<string>)
    ensures FirstBadEntry(ps, primary, chain).Pass? <==> forall c :: c in chain ==> Resolves(ps, c) && c != primary
    decreases |chain|
  {
    if chain != [] {
      NoBadEntryIff(ps, primary, chain[1..]);
      assert chain == [chain[0]] + chain[1..];
      hide Resolves;
    }
  }

  /** An agent patch is accepted exactly when the primary, if there is one, and all
      fallback entries of the patched agent name endpoints, no fallback entry repeats the
      primary, and the limits it sets are in range. */
  lemma AcceptedExactly(ps: Providers, agent: AgentConfig, patch: AgentPatch)
    ensures AgentError(ps, agent, patch).Pass? <==>
              var next := PatchAgent(agent, patch);
              && (next.primary == "" || Resolves(ps, next.primary))
              && (forall c :: c in next.fallbackChain ==> Resolves(ps, c) && c != next.primary)
              && (patch.maxTurns.Some? ==> patch.maxTurns.value >= 1)
              && (patch.maxToolCalls.Some? ==> patch.maxToolCalls.value >= 0)
              && (patch.thinkingIntensity.Some? ==> patch.thinkingIntensity.value in ["", "low", "medium", "high"])
  {
    var next := PatchAgent(agent, patch);
    NoBadEntryIff(ps, next.primary, next.fallbackChain);
    hide Resolves, FirstBadEntry, PatchAgent;
  }

  lemma AcceptedResolves(ps: Providers, agent: AgentConfig, patch: AgentPatch)
    requires AgentError(ps, agent, patch).Pass?
    ensures AllResolve(ps, PatchAgent(agent, patch))
  {
    var next := PatchAgent(agent, patch);
    NoBadEntry(ps, next.primary, next.fallbackChain);
  }

  /** A cache that has only gained entries routes to the same adapters. */
  lemma GrownStaysLive(current: Failover?<Adapter>, ps: Providers, agent: AgentConfig, before: Cache, after: Cache)
    requires Grown(before, after) && Routable(ps, agent, before) && Live(current, ps, agent, before)
    ensures Routable(ps, agent, after) && Live(current, ps, agent, after)
  {
  }

  /** A new provider disturbs nothing that is routed or cached. */
  lemma AddStep(ps: Providers, agent: AgentConfig, cache: Cache, name: string, p: ProviderConfig)
    requires Core(ps, agent, cache) && name !in ps && WellNamedProvider(name)
    ensures Core(ps[name := p], agent, cache)
  {
  }

  function WithEndpoint(ps: Providers, r: Ref, ep: EndpointConfig): Providers
    requires r.prov in ps
  {
    ps[r.prov := ps[r.prov].(endpoints := ps[r.prov].endpoints[r.ep := ep])]
  }

  /** An endpoint without a token limit gets the configured one, or 8192. */
  lemma DefaultedReads(ep: EndpointConfig, configured: int)
    ensures var d := Defaulted(ep, configured);
            && d.(maxTokens := ep.maxTokens) == ep
            && (ep.maxTokens != 0 ==> d.maxTokens == ep.maxTokens)
            && (ep.maxTokens == 0 && configured > 0 ==> d.maxTokens == configured)
            && (ep.maxTokens == 0 && configured <= 0 ==> d.maxTokens == 8192)
  {
  }

  function Defaulted(ep: EndpointConfig, configured: int): EndpointConfig {
    if ep.maxTokens == 0 then ep.(maxTokens := if configured > 0 then configured else 8192) else ep
  }

  /** Storing an endpoint with an adapter built for it. */
  lemma StoreStep(ps: Providers, agent: AgentConfig, cache: Cache, r: Ref, ep: EndpointConfig, a: Adapter)
    requires Core(ps, agent, cache) && r.prov in ps && a !in cache.Values
    requires a.built == InputFor(WithEndpoint(ps, r, ep), agent, r)
    ensures Core(WithEndpoint(ps, r, ep), agent, cache[Format(r) := a])
    ensures Format(r) in cache ==> cache[Format(r)] !in cache[Format(r) := a].Values
  {
  }

  /** An endpoint that does not exist has no cached adapter. */
  lemma FreshKey(ps: Providers, agent: AgentConfig, cache: Cache, r: Ref)
    requires Core(ps, agent, cache) && r.prov in ps && !Exists(ps, r)
    ensures Format(r) !in cache
  {
    if Format(r) in cache {
      FormatInjective(cache[Format(r)].built.ref, r);
    }
  }

  /** Filling an empty chain with a stored endpoint of a proper name. */
  lemma FillStep(ps: Providers, agent: AgentConfig, cache: Cache, r: Ref)
    requires Core(ps, agent, cache) && Exists(ps, r) && Format(r) in cache && r.ep != ""
    ensures Core(ps, AfterAutoFill(ps, agent, r), cache)
  {
    hide Effective, Dedup, Parse, Format;
    FillKeepsRoutable(ps, agent, cache, r);
    TuningKept(ps, agent, AfterAutoFill(ps, agent, r), cache);
  }

  /** Disabling an endpoint, as a step of the chain. */
  lemma DisableStep(ps: Providers, agent: AgentConfig, cache: Cache, r: Ref, disabling: bool)
    requires Core(ps, agent, cache)
    ensures Core(ps, AfterEndpointDisable(agent, r, disabling), cache)
  {
  }

  /** Auto-fill keeps the chain routable unless it promotes an endpoint with an
      empty name: that makes an entry which nothing resolves. */
  lemma FillRoutableUnlessNameless(ps: Providers, agent: AgentConfig, cache: Cache, r: Ref)
    requires Core(ps, agent, cache) && Exists(ps, r) && Format(r) in cache
    ensures var agent' := AfterAutoFill(ps, agent, r);
            && Coherent(ps, agent', cache)
            && (if r.ep == "" && Chain(agent) == [] && Usable(ps, r) then !AllResolve(ps, agent')
                else Routable(ps, agent', cache) && AllResolve(ps, agent'))
  {
    var agent' := AfterAutoFill(ps, agent, r);
    TuningKept(ps, agent, agent', cache);
    if r.ep != "" {
      FillStep(ps, agent, cache, r);
    } else if Chain(agent) == [] && Usable(ps, r) {
      FillReads(agent, r);
      SeparatorAt(r);
      assert Chain(agent')[0] == Format(r) && Parse(Format(r)) == None;
    }
  }

  function WithoutEndpoint(ps: Providers, r: Ref): Providers
    requires r.prov in ps
  {
    ps[r.prov := ps[r.prov].(endpoints := ps[r.prov].endpoints - {r.ep})]
  }

  function AfterDelete(agent: AgentConfig, dotted: string): AgentConfig {
    if dotted in Chain(agent) then SetChain(agent, Without(Chain(agent), c => c == dotted)) else agent
  }

  lemma OnlyEntry(chain: seq<string>, dotted: string)
    requires Distinct(chain)
    ensures dotted in chain ==> (Without(chain, c => c == dotted) == [] <==> chain == [dotted])
    ensures dotted !in chain ==> chain != [dotted]
  {
  }

  /** Deleting an endpoint keeps the cache coherent; the chain stays routable
      exactly when no entry names the endpoint in another form. */
  lemma DeleteStep(ps: Providers, agent: AgentConfig, cache: Cache, r: Ref)
    requires Core(ps, agent, cache) && Exists(ps, r)
    ensures var agent' := AfterDelete(agent, Format(r));
            var cache' := cache - {Format(r)};
            && Coherent(WithoutEndpoint(ps, r), agent', cache') && WellNamed(WithoutEndpoint(ps, r))
            && (if HasLegacyRef(Chain(agent), r) then !AllResolve(WithoutEndpoint(ps, r), agent')
                else Routable(WithoutEndpoint(ps, r), agent', cache') && AllResolve(WithoutEndpoint(ps, r), agent'))
            && (Format(r) in cache ==> cache[Format(r)] !in cache'.Values)
  {
    var ps', agent', cache' := WithoutEndpoint(ps, r), AfterDelete(agent, Format(r)), cache - {Format(r)};
    DeleteCoherent(ps, agent, cache, r);
    TuningKept(ps', agent, agent', cache');
    NoEmptyEntry(ps, agent, cache);
    DisableKeepsOthers(agent, c => c == Format(r));
    DeleteRoutable(ps, agent, cache, r, Chain(agent'));
  }

  lemma DeleteCoherent(ps: Providers, agent: AgentConfig, cache: Cache, r: Ref)
    requires Core(ps, agent, cache) && Exists(ps, r)
    ensures Coherent(WithoutEndpoint(ps, r), agent, cache - {Format(r)})
    ensures Format(r) in cache ==> cache[Format(r)] !in (cache - {Format(r)}).Values
  {
  }

  lemma DeleteRoutable(ps: Providers, agent: AgentConfig, cache: Cache, r: Ref, chain': seq<string>)
    requires Core(ps, agent, cache) && Exists(ps, r)
    requires forall c :: c in chain' <==> c in Chain(agent) && c != Format(r)
    ensures if HasLegacyRef(Chain(agent), r) then exists c :: c in chain' && !Resolves(WithoutEndpoint(ps, r), c)
            else forall c :: c in chain' ==> Resolves(WithoutEndpoint(ps, r), c) && KeyOf(c) in cache - {Format(r)}
  {
    hide Effective, Dedup, Parse, Format;
    forall c | c in chain'
      ensures if RefersTo(c, r) then !Resolves(WithoutEndpoint(ps, r), c)
              else Resolves(WithoutEndpoint(ps, r), c) && KeyOf(c) in cache - {Format(r)}
    {
      assert Resolves(ps, c) && KeyOf(c) in cache;
      if !RefersTo(c, r) && KeyOf(c) == Format(r) {
        FormatInjective(Parse(c).value, r);
        assert false;
      }
    }
  }

  /** The adapters that a merge replaces are no longer in the cache: an adapter
      is cached under the key of its own reference only. */
  lemma ReplacedLeave(ps: Providers, agent: AgentConfig, cache: Cache, built: Cache)
    requires Coherent(ps, agent, cache)
    requires forall k :: k in built ==> built[k] !in cache.Values
    ensures (set k | k in built && k in cache :: cache[k]) !! (cache + built).Values
  {
  }

  lemma CredsKeepRoutable(ps: Providers, agent: AgentConfig, cache: Cache, name: string, p: ProviderConfig,
                          disabling: bool, first: string)
    requires Routable(ps, agent, cache) && WellNamedProvider(name)
    requires name in ps && p == ps[name]
    requires forall e :: e in p.endpoints ==> Format(Ref(name, e)) in cache
    requires FillChoice(agent, name, p, disabling, first)
    ensures Routable(ps, AfterCreds(agent, name, disabling, first), cache)
  {
    DisableKeepsRoutable(ps, agent, cache, ToProvider(name));
    if first != "" {
      FillKeepsRoutable(ps, AfterProviderDisable(agent, name, disabling), cache, Ref(name, first));
    }
  }

  /** A credentials patch, as a change of tree, chain and cache, keeps them in
      agreement; the adapters it replaces leave the cache. */
  lemma CredsStep(ps: Providers, agent: AgentConfig, cache: Cache, name: string, p: ProviderConfig, built: Cache,
                  disabling: bool, first: string)
    requires Core(ps, agent, cache)
    requires name in ps && p.endpoints == ps[name].endpoints && Coherent(ps[name := p], agent, built)
    requires forall e :: e in p.endpoints ==> Format(Ref(name, e)) in built
    requires forall k :: k in built ==> built[k] !in cache.Values
    requires FillChoice(agent, name, p, disabling, first)
    ensures Core(ps[name := p], AfterCreds(agent, name, disabling, first), cache + built)
    ensures (set k | k in built && k in cache :: cache[k]) !! (cache + built).Values
  {
    hide Effective, Format, Dedup, Parse, InputFor;
    var agent' := AfterCreds(agent, name, disabling, first);
    MergeCoherent(ps, agent, cache, name, p, built);
    TuningKept(ps[name := p], agent, agent', cache + built);
    assert Routable(ps[name := p], agent, cache + built);
    CredsKeepRoutable(ps[name := p], agent, cache + built, name, p, disabling, first);
    ReplacedLeave(ps, agent, cache, built);
  }

  lemma FailureWithin(builder: Builder, from: nat, mid: nat, to: nat)
    requires from <= mid && SomeBuildFails(builder, mid, to)
    ensures SomeBuildFails(builder, from, to)
  {
  }

  lemma StillWired(ps: Providers, before: Cache, after: Cache, chain: seq<string>, ads: seq<Adapter>, off: seq<bool>)
    requires Grown(before, after) && |chain| == |ads| == |off|
    requires forall j :: 0 <= j < |chain| ==> Wired(ps, before, chain[j], ads[j], off[j])
    ensures forall j :: 0 <= j < |chain| ==> Wired(ps, after, chain[j], ads[j], off[j])
  {
  }

  lemma AllWired(ps: Providers, agent: AgentConfig, cache: Cache, chain: seq<string>, ads: seq<Adapter>, off: seq<bool>)
    requires chain == Chain(agent) && |chain| == |ads| == |off|
    requires forall j :: 0 <= j < |chain| ==> Wired(ps, cache, chain[j], ads[j], off[j])
    ensures Routable(ps, agent, cache) && "" !in chain
  {
  }

  // ----- Canonical references -----

  predicate Canonical(chain: seq<string>) {
    forall c :: c in chain ==> ':' in c
  }

  predicate ProperRef(c: string) {
    c == "" || ':' in c
  }

  /** One request to the management API. */
  datatype Op =
    | Creds(name: string, creds: CredsPatch)
    | NewProvider(name: string, cfg: ProviderConfig)
    | NewEndpoint(prov: string, ep: string, config: EndpointConfig)
    | ChangeEndpoint(prov: string, ep: string, patch: EndpointPatch)
    | DropEndpoint(prov: string, ep: string)
    | ChangeAgent(agentPatch: AgentPatch)
    | SetWholeChain(chain: seq<string>)

  /** A request that writes references in the "provider:endpoint" form. */
  predicate Proper(op: Op) {
    match op
    case ChangeEndpoint(_, e, _) => e != ""
    case ChangeAgent(p) =>
      && (p.primary.Some? ==> ProperRef(p.primary.value))
      && (p.fallbackChain.Some? ==> forall c :: c in p.fallbackChain.value ==> ':' in c)
    case SetWholeChain(chain) => forall c :: c in chain ==> ':' in c
    case _ => true
  }

  /** In a canonical chain every endpoint can be deleted cleanly; a legacy entry
      such as "a.b" is exactly what a deletion of "a:b" would leave behind. */
  lemma CanonicalHasNoLegacy(chain: seq<string>, r: Ref)
    requires Canonical(chain)
    ensures !HasLegacyRef(chain, r)
  {
  }

  lemma LegacyEntryExample()
    ensures HasLegacyRef(["a.b", "c:d"], Ref("a", "b"))
  {
    var s := "a.b";
    assert IndexOf(s, ':') == -1 && IndexOf(s, '.') == 1;
    assert s[..1] == "a" && s[2..] == "b";
    assert RefersTo(s, Ref("a", "b")) && s != Format(Ref("a", "b")) && s in ["a.b", "c:d"];
  }

  lemma CredsCanonical(agent: AgentConfig, name: string, disabling: bool, first: string)
    requires Canonical(Chain(agent)) && "" !in Chain(agent)
    ensures Canonical(Chain(AfterCreds(agent, name, disabling, first)))
  {
  }

  lemma FillCanonical(ps: Providers, agent: AgentConfig, r: Ref)
    requires Canonical(Chain(agent))
    ensures Canonical(Chain(AfterAutoFill(ps, agent, r)))
  {
  }

  lemma EndpointCanonical(ps: Providers, agent: AgentConfig, r: Ref, disabling: bool)
    requires Canonical(Chain(agent)) && "" !in Chain(agent)
    ensures Canonical(Chain(AfterAutoFill(ps, AfterEndpointDisable(agent, r, disabling), r)))
  {
  }

  lemma DeleteCanonical(agent: AgentConfig, dotted: string)
    requires Canonical(Chain(agent)) && "" !in Chain(agent)
    ensures Canonical(Chain(AfterDelete(agent, dotted)))
  {
  }

  lemma AgentCanonical(agent: AgentConfig, patch: AgentPatch)
    requires Canonical(Chain(agent)) && Proper(ChangeAgent(patch))
    ensures Canonical(Chain(PatchAgent(agent, patch)))
  {
  }

  lemma WholeChainCanonical(chain: seq<string>)
    requires chain != [] && Canonical(chain)
    ensures Canonical(Effective(chain[0], chain[1..]))
  {
  }

  class Manager {
    const builder: Builder
    const cooldown: (int, int, int)
    const configuredMaxTokens: int

    var providers: Providers
    var agent: AgentConfig
    var adapters: Cache
    var current: Failover?<Adapter>
    var calls: nat

    ghost predicate Valid()
      reads this, adapters.Values
    {
      && Core(providers, agent, adapters)
      && AllOpen(adapters)
      && Live(current, providers, agent, adapters)
    }

    constructor (providers: Providers, agent: AgentConfig, builder: Builder, cooldown: (int, int, int),
                 configuredMaxTokens: int)
      ensures this.providers == providers && this.agent == agent && this.builder == builder
      ensures adapters == map[] && current == null && calls == 0
    {
      this.providers, this.agent, this.builder := providers, agent, builder;
      this.cooldown, this.configuredMaxTokens := cooldown, configuredMaxTokens;
      adapters, current, calls := map[], null, 0;
    }

    /** New: the initial build; null when it fails. */
    static method New(providers: Providers, agent: AgentConfig, builder: Builder, cooldown: (int, int, int),
                      configuredMaxTokens: int) returns (m: Manager?)
      requires WellNamed(providers)
      ensures m != null ==> fresh(m) && m.Valid() && m.providers == providers && m.agent == agent
      ensures m == null ==> !AllResolve(providers, agent) || exists n: nat, input :: !builder(n, input)
    {
      var mgr := new Manager(providers, agent, builder, cooldown, configuredMaxTokens);
      var err := mgr.Rebuild();
      m := if err.Pass? then mgr else null;
    }

    method Build(input: BuildInput) returns (a: Adapter?)
      modifies this`calls
      ensures calls == old(calls) + 1
      ensures a == null <==> !builder(old(calls), input)
      ensures a != null ==> fresh(a) && a.built == input && !a.closed
    {
      var n := calls;
      calls := calls + 1;
      if builder(n, input) {
        a := new Adapter(input);
      } else {
        a := null;
      }
    }

    /** The cached adapter of an existing endpoint, built and cached on a miss. */
    method CachedOrBuilt(r: Ref) returns (a: Adapter?)
      requires Exists(providers, r)
      requires WellNamed(providers) && Coherent(providers, agent, adapters) && AllOpen(adapters)
      modifies this`adapters, this`calls
      ensures Coherent(providers, agent, adapters) && AllOpen(adapters) && Grown(old(adapters), adapters)
      ensures Format(r) in old(adapters) ==> a != null && adapters == old(adapters) && calls == old(calls)
      ensures calls >= old(calls)
      ensures a == null ==> adapters == old(adapters) && SomeBuildFails(builder, old(calls), calls)
      ensures a != null ==> Format(r) in adapters && adapters[Format(r)] == a
      ensures forall k :: k in adapters && k !in old(adapters) ==> fresh(adapters[k])
    {
      var key := Format(r);
      if key in adapters {
        return adapters[key];
      }
      var input := InputFor(providers, agent, r);
      a := Build(input);
      if a != null {
        adapters := adapters[key := a];
      } else {
        assert !builder(old(calls), input);
      }
    }

    /** Looks up or builds the adapter of the next chain entry. */
    method WireNext(chain: seq<string>, ads: seq<Adapter>, disabled: seq<bool>)
      returns (ok: bool, ads': seq<Adapter>, disabled': seq<bool>)
      requires WellNamed(providers) && Coherent(providers, agent, adapters) && AllOpen(adapters)
      requires |ads| == |disabled| < |chain| && Resolves(providers, chain[|ads|])
      requires forall j :: 0 <= j < |ads| ==> Wired(providers, adapters, chain[j], ads[j], disabled[j])
      modifies this`adapters, this`calls
      ensures Coherent(providers, agent, adapters) && AllOpen(adapters) && Grown(old(adapters), adapters)
      ensures KeyOf(chain[|ads|]) in old(adapters) ==> ok && adapters == old(adapters) && calls == old(calls)
      ensures calls >= old(calls)
      ensures !ok ==> SomeBuildFails(builder, old(calls), calls)
      ensures forall k :: k in adapters && k !in old(adapters) ==> fresh(adapters[k])
      ensures ok ==> |ads'| == |disabled'| == |ads| + 1
      ensures ok ==> forall j :: 0 <= j < |ads'| ==> Wired(providers, adapters, chain[j], ads'[j], disabled'[j])
    {
      var n := |ads|;
      var a := CachedOrBuilt(Parse(chain[n]).value);
      ads', disabled' := ads, disabled;
      ok := a != null;
      if ok {
        StillWired(providers, old(adapters), adapters, chain[..n], ads, disabled);
        ads' := ads + [a];
        disabled' := disabled + [Off(providers, chain[n])];
      }
    }

    /** The atomic swap at the end of a rebuild. */
    method Swap(chain: seq<string>, ads: seq<Adapter>, disabled: seq<bool>)
      requires WellNamed(providers) && Coherent(providers, agent, adapters) && AllOpen(adapters)
      requires chain == Chain(agent) && chain != [] && |chain| == |ads| == |disabled|
      requires forall j :: 0 <= j < |chain| ==> Wired(providers, adapters, chain[j], ads[j], disabled[j])
      modifies this`current
      ensures Valid() && current != null && fresh(current)
    {
      AllWired(providers, agent, adapters, chain, ads, disabled);
      current := new Failover(ads, chain, disabled, cooldown.0, cooldown.1, cooldown.2);
      assert forall j :: 0 <= j < |chain| ==> Wired(providers, adapters, chain[j], ads[j], disabled[j]);
    }

    /** rebuildLocked: a new dispatcher from the tree, the chain and the cache,
        swapped in at the end. It cannot fail when every entry is cached. */
    method Rebuild() returns (err: Outcome<Error>)
      requires WellNamed(providers) && Coherent(providers, agent, adapters) && AllOpen(adapters)
      modifies this`adapters, this`current, this`calls
      ensures Coherent(providers, agent, adapters) && AllOpen(adapters) && Grown(old(adapters), adapters)
      ensures forall k :: k in adapters && k !in old(adapters) ==> fresh(adapters[k])
      ensures old(Routable(providers, agent, adapters)) ==> err.Pass? && adapters == old(adapters) && calls == old(calls)
      ensures err.Pass? ==> Valid() && (current != null ==> fresh(current))
      ensures err.Fail? ==> err == Fail(RebuildFailed) && current == old(current)
      ensures err.Fail? ==> !AllResolve(providers, agent) || SomeBuildFails(builder, old(calls), calls)
      ensures calls >= old(calls)
    {
      var chain := ComputeEffective(agent.primary, agent.fallbackChain);
      if chain == [] {
        current := null;
        return Pass;
      }
      hide Coherent, Wired, Core, Live, WellNamed, Resolves, Grown, SomeBuildFails, Effective;
      var ok, ads, disabled := WireAll(chain);
      if !ok {
        return Fail(RebuildFailed);
      }
      Swap(chain, ads, disabled);
      return Pass;
    }

    /** Looks up or builds the adapters of the whole chain. */
    method WireAll(chain: seq<string>) returns (ok: bool, ads: seq<Adapter>, disabled: seq<bool>)
      requires WellNamed(providers) && Coherent(providers, agent, adapters) && AllOpen(adapters) && chain == Chain(agent)
      modifies this`adapters, this`calls
      ensures Coherent(providers, agent, adapters) && AllOpen(adapters) && Grown(old(adapters), adapters)
      ensures forall k :: k in adapters && k !in old(adapters) ==> fresh(adapters[k])
      ensures Routable(providers, agent, old(adapters)) ==> ok && adapters == old(adapters) && calls == old(calls)
      ensures ok ==>
                |ads| == |disabled| == |chain| &&
                forall j :: 0 <= j < |chain| ==> Wired(providers, adapters, chain[j], ads[j], disabled[j])
      ensures !ok ==> !AllResolve(providers, agent) || SomeBuildFails(builder, old(calls), calls)
      ensures calls >= old(calls)
    {
      hide Coherent, Wired, Routable, AllResolve, WellNamed, Resolves, KeyOf, Grown, SomeBuildFails, Effective;
      GrownRefl(adapters);
      ads, disabled := [], [];
      for i := 0 to |chain|
        invariant old(calls) <= calls
        invariant Coherent(providers, agent, adapters) && AllOpen(adapters) && Grown(old(adapters), adapters)
        invariant forall k :: k in adapters && k !in old(adapters) ==> fresh(adapters[k])
        invariant Routable(providers, agent, old(adapters)) ==> adapters == old(adapters) && calls == old(calls)
        invariant |ads| == |disabled| == i
        invariant forall j :: 0 <= j < i ==> Wired(providers, adapters, chain[j], ads[j], disabled[j])
      {
        EntryFacts(providers, agent, old(adapters), chain[i]);
        if !Resolves(providers, chain[i]) {
          return false, ads, disabled;
        }
        ghost var called, cached := calls, adapters;
        ok, ads, disabled := WireNext(chain, ads, disabled);
        GrownTrans(old(adapters), cached, adapters);
        if !ok {
          FailureWithin(builder, old(calls), called, calls);
          return false, ads, disabled;
        }
      }
      ok := true;
    }

    /** What a completed operation does to adapters: whatever is new in the cache
        is freshly built, and exactly the adapters that left it are shut down. */
    twostate predicate Turnover()
      reads *
    {
      && (forall k :: k in adapters ==> fresh(adapters[k]) || (k in old(adapters) && adapters[k] == old(adapters)[k]))
      && (forall k :: k in old(adapters) ==>
            (old(adapters)[k].closed <==> !(k in adapters && adapters[k] == old(adapters)[k])))
    }

    twostate predicate ConfigUnchanged()
      reads this
    {
      providers == old(providers) && agent == old(agent) && current == old(current)
    }

    /** Shuts a set of replaced adapters down. */
    method Retire(replaced: set<Adapter>)
      requires Valid() && replaced !! adapters.Values
      modifies replaced
      ensures Valid()
      ensures forall a :: a in replaced ==> a.closed
    {
      var todo := replaced;
      while todo != {}
        invariant todo <= replaced
        invariant AllOpen(adapters)
        invariant forall a :: a in replaced - todo ==> a.closed
      {
        var a :| a in todo;
        a.Shutdown();
        todo := todo - {a};
      }
    }

    /** The end of an operation whose chain entries are all cached: the rebuild
        cannot fail, and the replaced adapters are shut down after the swap. */
    method RebuildAndRetire(replaced: set<Adapter>)
      requires Core(providers, agent, adapters) && AllOpen(adapters) && replaced !! adapters.Values
      modifies this`adapters, this`current, this`calls, replaced
      ensures Valid() && adapters == old(adapters) && calls == old(calls)
      ensures forall a :: a in replaced ==> a.closed
    {
      var err := Rebuild();
      Retire(replaced);
    }

    /** The end of an operation that may have left an entry nothing resolves: then,
        and only then, the rebuild fails and the old dispatcher stays. */
    method RebuildOrFail(replaced: set<Adapter>) returns (err: Outcome<Error>)
      requires WellNamed(providers) && Coherent(providers, agent, adapters) && AllOpen(adapters)
      requires Routable(providers, agent, adapters) || !AllResolve(providers, agent)
      requires replaced !! adapters.Values
      modifies this`adapters, this`current, this`calls, replaced
      ensures err == if AllResolve(providers, agent) then Pass else Fail(RebuildFailed)
      ensures Valid() <==> err.Pass?
      ensures err.Pass? ==> adapters == old(adapters) && forall a :: a in replaced ==> a.closed
      ensures err.Fail? ==> current == old(current)
    {
      hide Coherent, Resolves, Effective, Dedup;
      err := Rebuild();
      if err.Pass? {
        Retire(replaced);
      }
    }

    /** autoFillEmptyChain. */
    method AutoFillEmptyChain(r: Ref)
      modifies this`agent
      ensures agent == AfterAutoFill(providers, old(agent), r)
    {
      var chain := ComputeEffective(agent.primary, agent.fallbackChain);
      if chain == [] && Usable(providers, r) {
        agent := SetChain(agent, [Format(r)]);
      }
    }

    // ----- Provider credentials -----

    /** A replacement adapter for every endpoint of a provider, in any order. */
    method BuildAll(name: string, ps: Providers) returns (ok: bool, built: Cache)
      requires name in ps
      modifies this`calls
      ensures calls >= old(calls)
      ensures !ok ==> SomeBuildFails(builder, old(calls), calls)
      ensures ok ==> forall e :: e in ps[name].endpoints ==> Format(Ref(name, e)) in built
      ensures Coherent(ps, agent, built)
      ensures forall k :: k in built ==> fresh(built[k]) && !built[k].closed && built[k].built.ref.prov == name
    {
      built := map[];
      ok := true;
      var todo := ps[name].endpoints.Keys;
      while todo != {}
        invariant todo <= ps[name].endpoints.Keys
        invariant old(calls) <= calls
        invariant forall e :: e in ps[name].endpoints && e !in todo ==> Format(Ref(name, e)) in built
        invariant Coherent(ps, agent, built)
        invariant forall k :: k in built ==> fresh(built[k]) && !built[k].closed && built[k].built.ref.prov == name
      {
        var e :| e in todo;
        var input := InputFor(ps, agent, Ref(name, e));
        ghost var n := calls;
        var a := Build(input);
        if a == null {
          assert !builder(n, input);
          return false, built;
        }
        built := built[Format(Ref(name, e)) := a];
        todo := todo - {e};
      }
    }

    /** firstEnabledEndpointName of an enabled provider. */
    method FirstEnabled(eps: map<string, EndpointConfig>) returns (first: string)
      ensures IsFirstEnabled(eps, first)
    {
      first := "";
      var found := false;
      var todo := eps.Keys;
      while todo != {}
        invariant todo <= eps.Keys
        invariant !found ==> first == "" && forall e :: EnabledName(eps, e) ==> e in todo
        invariant found ==> EnabledName(eps, first) && forall e :: EnabledName(eps, e) && e !in todo ==> StringLeq(first, e)
      {
        var e :| e in todo;
        todo := todo - {e};
        if !eps[e].disabled {
          StringLeqTotal(e, e);
          if !found || !StringLeq(first, e) {
            forall x | found && EnabledName(eps, x) && x !in todo ensures StringLeq(e, x) {
              StringLeqTotal(e, first);
              if x != e {
                StringLeqTransitive(e, first, x);
              }
            }
            first, found := e, true;
          }
        }
      }
    }

    /** The chain part of a credentials patch, once tree and cache are updated. */
    method CommitCreds(name: string, disabling: bool) returns (ghost first: string)
      requires name in providers
      modifies this`agent
      ensures FillChoice(old(agent), name, providers[name], disabling, first)
      ensures agent == AfterCreds(old(agent), name, disabling, first)
    {
      if disabling {
        var chain := ComputeEffective(agent.primary, agent.fallbackChain);
        var kept, removed := FilterProvider(chain, name);
        if removed > 0 {
          agent := SetChain(agent, kept);
        }
      }
      first := "";
      var chain := ComputeEffective(agent.primary, agent.fallbackChain);
      if !providers[name].disabled && chain == [] {
        var f := FirstEnabled(providers[name].endpoints);
        if f != "" {
          AutoFillEmptyChain(Ref(name, f));
        }
        first := f;
      }
    }

    /** The commit of a credentials patch: tree, cache, chain, dispatcher, and the
        replaced adapters shut down last. */
    method InstallCreds(name: string, p: ProviderConfig, built: Cache, disabling: bool)
      requires Valid() && name in providers && p.endpoints == providers[name].endpoints
      requires Coherent(providers[name := p], agent, built) && AllOpen(built)
      requires forall e :: e in p.endpoints ==> Format(Ref(name, e)) in built
      requires forall k :: k in built ==> built[k] !in adapters.Values
      modifies this, adapters.Values
      ensures Valid() && providers == old(providers)[name := p] && adapters == old(adapters) + built
      ensures forall k :: k in old(adapters) ==> (old(adapters)[k].closed <==> k in built)
      ensures exists first :: FillChoice(old(agent), name, p, disabling, first) &&
                              agent == AfterCreds(old(agent), name, disabling, first)
    {
      hide Coherent, Routable, FillChoice, AfterCreds, Effective, Format;
      ghost var ps0, agent0, cache0 := providers, agent, adapters;
      var replaced := set k | k in built && k in adapters :: adapters[k];
      providers := providers[name := p];
      adapters := adapters + built;
      ghost var first := CommitCreds(name, disabling);
      CredsStep(ps0, agent0, cache0, name, p, built, disabling, first);
      RebuildAndRetire(replaced);
    }

    /** The steps of a credentials patch: checks, replacement adapters, commit. */
    method PatchProvider(name: string, patch: CredsPatch) returns (err: Outcome<Error>)
      requires Valid()
      modifies this, adapters.Values
      ensures Valid() && Turnover()
      ensures err.Fail? ==> ConfigUnchanged()
      ensures patch == NO_CREDS ==> err == Fail(EmptyPatch)
      ensures patch != NO_CREDS && name !in old(providers) ==> err == Fail(UnknownProvider)
      ensures patch != NO_CREDS && name in old(providers) && patch.kind.Some? && !TypeAllowed(patch.kind.value) ==>
                err == Fail(TypeNotAllowed)
      ensures patch != NO_CREDS && name in old(providers) && (patch.kind.Some? ==> TypeAllowed(patch.kind.value)) ==>
                err.Pass? || (err == Fail(BuildFailed) && SomeBuildFails(builder, old(calls), calls))
      ensures err.Pass? ==>
                name in old(providers) &&
                providers == old(providers)[name := PatchCreds(old(providers)[name], patch)] &&
                var disabling := patch.disabled == Some(true);
                exists first :: FillChoice(old(agent), name, providers[name], disabling, first) &&
                                agent == AfterCreds(old(agent), name, disabling, first)
    {
      if patch == NO_CREDS {
        return Fail(EmptyPatch);
      }
      if name !in providers {
        return Fail(UnknownProvider);
      }
      if patch.kind.Some? && !TypeAllowed(patch.kind.value) {
        return Fail(TypeNotAllowed);
      }
      var p := PatchCreds(providers[name], patch);
      var ok, built := BuildAll(name, providers[name := p]);
      if !ok {
        return Fail(BuildFailed);
      }
      InstallCreds(name, p, built, patch.disabled == Some(true));
      return Pass;
    }

    method UpdateProviderCreds(name: string, patch: CredsPatch) returns (err: Outcome<Error>)
      requires Valid()
      modifies this, adapters.Values
      ensures Valid() && Turnover()
      ensures err.Fail? ==> ConfigUnchanged()
      ensures patch == NO_CREDS ==> err == Fail(EmptyPatch)
      ensures patch != NO_CREDS && name !in old(providers) ==> err == Fail(UnknownProvider)
      ensures patch != NO_CREDS && name in old(providers) && patch.kind.Some? && !TypeAllowed(patch.kind.value) ==>
                err == Fail(TypeNotAllowed)
      ensures patch != NO_CREDS && name in old(providers) && (patch.kind.Some? ==> TypeAllowed(patch.kind.value)) ==>
                err.Pass? || (err == Fail(BuildFailed) && SomeBuildFails(builder, old(calls), calls))
      ensures err.Pass? ==>
                name in old(providers) &&
                providers == old(providers)[name := PatchCreds(old(providers)[name], patch)] &&
                var disabling := patch.disabled == Some(true);
                exists first :: FillChoice(old(agent), name, providers[name], disabling, first) &&
                                agent == AfterCreds(old(agent), name, disabling, first)
      ensures err.Pass? ==>
                && CredsChain(old(Chain(agent)), Chain(agent), name, providers[name], patch.disabled == Some(true))
                && SameButChain(old(agent), agent)
    {
      NoEmptyEntry(providers, agent, adapters);
      hide Core, Live, Chain, Turnover, FillChoice, AfterCreds, CredsChain, SameButChain, SomeBuildFails, AllOpen, TypeAllowed;
      err := PatchProvider(name, patch);
      if err.Pass? {
        ghost var disabling := patch.disabled == Some(true);
        ghost var first :| FillChoice(old(agent), name, providers[name], disabling, first) &&
                           agent == AfterCreds(old(agent), name, disabling, first);
        CredsChainHolds(old(agent), name, providers[name], disabling, first);
      }
    }

    // ----- Provider creation -----

    method AddProvider(name: string, cfg: ProviderConfig) returns (err: Outcome<Error>)
      requires Valid()
      modifies this
      ensures Valid() && adapters == old(adapters) && agent == old(agent)
      ensures err == if name == "" then Fail(NameRequired)
                     else if ':' in name || '.' in name then Fail(BadName)
                     else if !TypeAllowed(cfg.kind) then Fail(TypeNotAllowed)
                     else if name in old(providers) then Fail(ProviderExists)
                     else Pass
      ensures err.Pass? ==> providers == old(providers)[name := cfg]
      ensures err.Fail? ==> ConfigUnchanged()
    {
      if name == "" {
        return Fail(NameRequired);
      }
      if ':' in name || '.' in name {
        return Fail(BadName);
      }
      if !TypeAllowed(cfg.kind) {
        return Fail(TypeNotAllowed);
      }
      if name in providers {
        return Fail(ProviderExists);
      }
      AddStep(providers, agent, adapters, name, cfg);
      hide Coherent, Routable, WellNamed, Chain;
      providers := providers[name := cfg];
      err := Rebuild();
    }

    // ----- Endpoints -----

    /** Stores an endpoint under an existing provider, with its new adapter, and
        returns the adapter it replaces. */
    method StoreEndpoint(r: Ref, ep: EndpointConfig, a: Adapter) returns (replaced: set<Adapter>)
      requires r.prov in providers
      requires Core(providers, agent, adapters) && AllOpen(adapters) && a !in adapters.Values && !a.closed
      requires a.built == InputFor(WithEndpoint(providers, r, ep), agent, r)
      modifies this`providers, this`adapters
      ensures providers == WithEndpoint(old(providers), r, ep) && adapters == old(adapters)[Format(r) := a]
      ensures replaced == if Format(r) in old(adapters) then {old(adapters)[Format(r)]} else {}
      ensures Core(providers, agent, adapters) && AllOpen(adapters) && replaced !! adapters.Values
    {
      StoreStep(providers, agent, adapters, r, ep, a);
      hide Coherent, Routable, Format;
      replaced := if Format(r) in adapters then {adapters[Format(r)]} else {};
      providers := WithEndpoint(providers, r, ep);
      adapters := adapters[Format(r) := a];
    }

    /** The commit of an added endpoint. */
    method InstallNew(r: Ref, ep: EndpointConfig, a: Adapter)
      requires Valid() && r.prov in providers && !Exists(providers, r) && r.ep != ""
      requires a !in adapters.Values && !a.closed && a.built == InputFor(WithEndpoint(providers, r, ep), agent, r)
      modifies this
      ensures Valid() && Format(r) !in old(adapters) && adapters == old(adapters)[Format(r) := a]
      ensures providers == WithEndpoint(old(providers), r, ep) && agent == AfterAutoFill(providers, old(agent), r)
    {
      FreshKey(providers, agent, adapters, r);
      hide Effective, Format, InputFor;
      var replaced := StoreEndpoint(r, ep, a);
      FillStep(providers, agent, adapters, r);
      AutoFillEmptyChain(r);
      RebuildAndRetire(replaced);
    }

    method AddEndpoint(provName: string, epName: string, ep0: EndpointConfig) returns (err: Outcome<Error>)
      requires Valid()
      modifies this
      ensures Valid() && Turnover()
      ensures var ep := Defaulted(ep0, configuredMaxTokens);
              var r := Ref(provName, epName);
              && err == (if provName == "" || epName == "" then Fail(NameRequired)
                         else if ep.model == "" then Fail(ModelRequired)
                         else if provName !in old(providers) then Fail(UnknownProvider)
                         else if epName in old(providers)[provName].endpoints then Fail(EndpointExists)
                         else if !builder(old(calls), InputFor(WithEndpoint(old(providers), r, ep), old(agent), r))
                           then Fail(BuildFailed)
                         else Pass)
              && (err.Pass? ==> providers == WithEndpoint(old(providers), r, ep)
                                && agent == AfterAutoFill(providers, old(agent), r))
      ensures err.Pass? ==>
                && OneEndpoint(old(providers), providers, Ref(provName, epName), Some(Defaulted(ep0, configuredMaxTokens)))
                && EndpointChain(old(Chain(agent)), Chain(agent), providers, Ref(provName, epName), false)
                && SameButChain(old(agent), agent)
      ensures err.Fail? ==> ConfigUnchanged()
    {
      if provName == "" || epName == "" {
        return Fail(NameRequired);
      }
      var ep := Defaulted(ep0, configuredMaxTokens);
      if ep.model == "" {
        return Fail(ModelRequired);
      }
      if provName !in providers {
        return Fail(UnknownProvider);
      }
      if epName in providers[provName].endpoints {
        return Fail(EndpointExists);
      }
      NoEmptyEntry(providers, agent, adapters);
      hide Chain, Format, Core, Live, InputFor, AfterAutoFill, Usable, EndpointChain, SameButChain, OneEndpoint;
      var r := Ref(provName, epName);
      var a := Build(InputFor(WithEndpoint(providers, r, ep), agent, r));
      if a == null {
        return Fail(BuildFailed);
      }
      InstallNew(r, ep, a);
      FilledChainHolds(old(agent), providers, r);
      EndpointTreeHolds(old(providers), r, ep);
      return Pass;
    }

    /** The chain part of an endpoint patch. */
    method CommitEndpoint(r: Ref, disabling: bool)
      modifies this`agent
      ensures agent == AfterAutoFill(providers, AfterEndpointDisable(old(agent), r, disabling), r)
    {
      hide Effective, Format, Dedup, Parse;
      if disabling {
        var chain := ComputeEffective(agent.primary, agent.fallbackChain);
        var kept, removed := FilterEntry(chain, r);
        if removed {
          agent := SetChain(agent, kept);
        }
      }
      AutoFillEmptyChain(r);
    }

    /** The commit of an endpoint patch. */
    method InstallEndpoint(r: Ref, ep: EndpointConfig, a: Adapter, disabling: bool) returns (err: Outcome<Error>)
      requires Valid() && Exists(providers, r) && a !in adapters.Values && !a.closed
      requires a.built == InputFor(WithEndpoint(providers, r, ep), agent, r)
      modifies this, adapters.Values
      ensures providers == WithEndpoint(old(providers), r, ep)
      ensures var kept := AfterEndpointDisable(old(agent), r, disabling);
              && agent == AfterAutoFill(providers, kept, r)
              && err == if r.ep == "" && Chain(kept) == [] && Usable(providers, r) then Fail(RebuildFailed) else Pass
      ensures Valid() <==> err.Pass?
      ensures err.Fail? ==> current == old(current)
      ensures err.Pass? ==> adapters == old(adapters)[Format(r) := a]
      ensures err.Pass? && Format(r) in old(adapters) ==> old(adapters)[Format(r)].closed
    {
      hide Chain, Format, InputFor;
      var replaced := StoreEndpoint(r, ep, a);
      ghost var kept := AfterEndpointDisable(agent, r, disabling);
      DisableStep(providers, agent, adapters, r, disabling);
      CommitEndpoint(r, disabling);
      FillRoutableUnlessNameless(providers, kept, adapters, r);
      hide Coherent, Routable, AllResolve, Usable, AfterAutoFill, AfterEndpointDisable, WithEndpoint;
      err := RebuildOrFail(replaced);
    }

    /** All-or-nothing except for one input: an enabled endpoint stored under the
        empty name while the chain is empty is promoted to an unparseable entry. */
    method UpdateEndpoint(provName: string, epName: string, patch: EndpointPatch) returns (err: Outcome<Error>)
      requires Valid()
      modifies this, adapters.Values
      ensures Turnover() || err == Fail(RebuildFailed)
      ensures var r := Ref(provName, epName);
              if patch == NO_ENDPOINT then err == Fail(EmptyPatch)
              else if provName !in old(providers) then err == Fail(UnknownProvider)
              else if epName !in old(providers)[provName].endpoints then err == Fail(UnknownEndpoint)
              else
                var ps := WithEndpoint(old(providers), r, PatchEndpoint(old(providers)[provName].endpoints[epName], patch));
                var kept := AfterEndpointDisable(old(agent), r, patch.disabled == Some(true));
                if !builder(old(calls), InputFor(ps, old(agent), r)) then err == Fail(BuildFailed)
                else
                  && providers == ps && agent == AfterAutoFill(ps, kept, r)
                  && err == if epName == "" && Chain(kept) == [] && Usable(ps, r) then Fail(RebuildFailed) else Pass
      ensures err.Pass? ==>
                var r := Ref(provName, epName);
                && OneEndpoint(old(providers), providers, r, Some(PatchEndpoint(old(providers)[provName].endpoints[epName], patch)))
                && EndpointChain(old(Chain(agent)), Chain(agent), providers, r, patch.disabled == Some(true))
                && SameButChain(old(agent), agent)
      ensures Valid() <==> err != Fail(RebuildFailed)
      ensures err.Fail? && err != Fail(RebuildFailed) ==> ConfigUnchanged()
    {
      if patch == NO_ENDPOINT {
        return Fail(EmptyPatch);
      }
      if provName !in providers {
        return Fail(UnknownProvider);
      }
      if epName !in providers[provName].endpoints {
        return Fail(UnknownEndpoint);
      }
      NoEmptyEntry(providers, agent, adapters);
      hide Chain, Format, Core, Live, InputFor, WithEndpoint, AfterEndpointDisable, AfterAutoFill, Usable, Turnover,
           EndpointChain, SameButChain, OneEndpoint;
      var r := Ref(provName, epName);
      err := ReplaceEndpoint(r, patch);
      if err.Pass? {
        StoredChainHolds(old(providers), old(agent), r, patch);
      }
    }

    /** Builds the adapter of the patched endpoint and commits the patch. */
    method ReplaceEndpoint(r: Ref, patch: EndpointPatch) returns (err: Outcome<Error>)
      requires Valid() && Exists(providers, r)
      modifies this, adapters.Values
      ensures Turnover() || err == Fail(RebuildFailed)
      ensures var ps := WithEndpoint(old(providers), r, PatchEndpoint(old(providers)[r.prov].endpoints[r.ep], patch));
              var kept := AfterEndpointDisable(old(agent), r, patch.disabled == Some(true));
              if !builder(old(calls), InputFor(ps, old(agent), r)) then err == Fail(BuildFailed)
              else
                && providers == ps && agent == AfterAutoFill(ps, kept, r)
                && err == if r.ep == "" && Chain(kept) == [] && Usable(ps, r) then Fail(RebuildFailed) else Pass
      ensures Valid() <==> err != Fail(RebuildFailed)
      ensures err.Fail? && err != Fail(RebuildFailed) ==> ConfigUnchanged()
    {
      var ep := PatchEndpoint(providers[r.prov].endpoints[r.ep], patch);
      var next := WithEndpoint(providers, r, ep);
      assert Exists(next, r);
      hide Chain, Format, Core, Live, InputFor, WithEndpoint, AfterEndpointDisable, AfterAutoFill, Usable;
      var a := Build(InputFor(next, agent, r));
      if a == null {
        return Fail(BuildFailed);
      }
      err := InstallEndpoint(r, ep, a, patch.disabled == Some(true));
    }

    /** Removes the entries equal to a string from the chain. */
    method DropFromChain(dotted: string)
      modifies this`agent
      ensures agent == AfterDelete(old(agent), dotted)
    {
      var chain := ComputeEffective(agent.primary, agent.fallbackChain);
      if dotted in chain {
        var filtered: seq<string> := [];
        for i := 0 to |chain|
          invariant unchanged(this)
          invariant filtered == Without(chain[..i], c => c == dotted)
        {
          assert chain[..i + 1][..i] == chain[..i];
          if chain[i] != dotted {
            filtered := filtered + [chain[i]];
          }
        }
        assert chain[..|chain|] == chain;
        agent := SetChain(agent, filtered);
      }
    }

    /** The commit of a deletion. */
    method RemoveEndpoint(r: Ref) returns (err: Outcome<Error>)
      requires Valid() && Exists(providers, r)
      modifies this, adapters.Values
      ensures providers == WithoutEndpoint(old(providers), r) && agent == AfterDelete(old(agent), Format(r))
      ensures err == if HasLegacyRef(old(Chain(agent)), r) then Fail(RebuildFailed) else Pass
      ensures Valid() <==> err.Pass?
      ensures err.Fail? ==> current == old(current) && !AllResolve(providers, agent)
      ensures err.Pass? ==> Turnover()
    {
      hide Effective, Format;
      DeleteStep(providers, agent, adapters, r);
      var dotted := Format(r);
      DropFromChain(dotted);
      hide AfterDelete, WithoutEndpoint, Chain;
      providers := WithoutEndpoint(providers, r);
      var retired := if dotted in adapters then {adapters[dotted]} else {};
      adapters := adapters - {dotted};
      hide Coherent, Routable, AllResolve, HasLegacyRef;
      err := RebuildOrFail(retired);
    }

    /** All-or-nothing for exactly the endpoints that no chain entry names in the
        legacy form: entries are matched as strings, so a legacy entry survives
        the deletion, the rebuild fails on it and the tree is left without the
        endpoint. */
    method DeleteEndpoint(provName: string, epName: string) returns (err: Outcome<Error>)
      requires Valid()
      modifies this, adapters.Values
      ensures var r := Ref(provName, epName);
              var chain := old(Chain(agent));
              && err == (if provName !in old(providers) then Fail(UnknownProvider)
                         else if epName !in old(providers)[provName].endpoints then Fail(UnknownEndpoint)
                         else if chain == [Format(r)] then Fail(LastChainEntry)
                         else if HasLegacyRef(chain, r) then Fail(RebuildFailed)
                         else Pass)
              && (err.Pass? || err == Fail(RebuildFailed) ==>
                    && providers == WithoutEndpoint(old(providers), r)
                    && agent == AfterDelete(old(agent), Format(r)))
      ensures err.Pass? || err == Fail(RebuildFailed) ==>
                && OneEndpoint(old(providers), providers, Ref(provName, epName), None)
                && WithoutEntry(old(Chain(agent)), Chain(agent), provName + ":" + epName)
                && SameButChain(old(agent), agent)
      ensures err == Fail(RebuildFailed) ==> current == old(current) && !AllResolve(providers, agent)
      ensures Valid() <==> err != Fail(RebuildFailed)
      ensures err != Fail(RebuildFailed) ==> Turnover()
      ensures err.Fail? && err != Fail(RebuildFailed) ==> ConfigUnchanged()
    {
      err := CheckDelete(provName, epName);
      if err.Fail? {
        return;
      }
      NoEmptyEntry(providers, agent, adapters);
      hide Chain, Format, Core, Live, AfterDelete, WithoutEndpoint, HasLegacyRef, OneEndpoint, WithoutEntry, SameButChain;
      var r := Ref(provName, epName);
      err := RemoveEndpoint(r);
      DeletedChainHolds(old(agent), r);
      EndpointTreeHolds(old(providers), r, old(providers)[provName].endpoints[epName]);
    }

    /** The checks before a deletion. */
    method CheckDelete(provName: string, epName: string) returns (err: Outcome<Error>)
      ensures err == if provName !in providers then Fail(UnknownProvider)
                     else if epName !in providers[provName].endpoints then Fail(UnknownEndpoint)
                     else if Chain(agent) == [Format(Ref(provName, epName))] then Fail(LastChainEntry)
                     else Pass
    {
      if provName !in providers {
        return Fail(UnknownProvider);
      }
      if epName !in providers[provName].endpoints {
        return Fail(UnknownEndpoint);
      }
      hide Effective, Format, Without;
      var dotted := Format(Ref(provName, epName));
      var chain := ComputeEffective(agent.primary, agent.fallbackChain);
      OnlyEntry(chain, dotted);
      if dotted in chain && Without(chain, c => c == dotted) == [] {
        return Fail(LastChainEntry);
      }
      return Pass;
    }

    // ----- Agent -----

    method ValidateAgent(patch: AgentPatch) returns (err: Outcome<Error>)
      ensures err == AgentError(providers, agent, patch)
    {
      var next := PatchAgent(agent, patch);
      if next.primary != "" && !Resolves(providers, next.primary) {
        return Fail(BadChainEntry(next.primary));
      }
      var chain := next.fallbackChain;
      for i := 0 to |chain|
        invariant FirstBadEntry(providers, next.primary, chain) == FirstBadEntry(providers, next.primary, chain[i..])
      {
        if !Resolves(providers, chain[i]) {
          return Fail(BadChainEntry(chain[i]));
        }
        if chain[i] == next.primary {
          return Fail(DuplicatesPrimary(chain[i]));
        }
        assert chain[i..][1..] == chain[i + 1..];
      }
      return LimitError(patch);
    }

    /** The commit of an agent patch that leaves the tuning alone. A failed build
        may have cached a few more adapters, all coherent. */
    method Reroute(next: AgentConfig) returns (err: Outcome<Error>)
      requires Valid() && AllResolve(providers, next)
      requires next.maxTokens == agent.maxTokens && next.temperature == agent.temperature
      modifies this
      ensures Valid() && Turnover() && providers == old(providers)
      ensures err.Pass? ==> agent == next
      ensures err.Fail? ==> ConfigUnchanged() && err == Fail(RebuildFailed) && SomeBuildFails(builder, old(calls), calls)
    {
      hide Effective, Resolves, InputFor, Format;
      ghost var prev, cache := agent, adapters;
      var saved := agent;
      TuningKept(providers, prev, next, adapters);
      agent := next;
      err := Rebuild();
      if err.Fail? {
        agent := saved;
        TuningKept(providers, next, prev, adapters);
        GrownStaysLive(current, providers, prev, cache, adapters);
      }
    }

    /** The commit of an agent patch that changes the tuning: the cache starts
        afresh, and comes back untouched when a build fails. */
    method Retune(next: AgentConfig) returns (err: Outcome<Error>)
      requires Valid() && AllResolve(providers, next)
      modifies this, adapters.Values
      ensures Valid() && Turnover() && providers == old(providers)
      ensures err.Pass? ==> agent == next
      ensures err.Fail? ==> ConfigUnchanged() && err == Fail(RebuildFailed) && SomeBuildFails(builder, old(calls), calls)
    {
      hide Effective, Resolves, InputFor, Format, Live, Coherent, AllResolve, Grown, SomeBuildFails;
      var prev, oldAdapters := agent, adapters;
      EmptyCache(providers, next);
      agent, adapters := next, map[];
      err := Rebuild();
      if err.Fail? {
        agent, adapters := prev, oldAdapters;
      } else {
        Retire(oldAdapters.Values);
      }
    }

    method UpdateAgent(patch: AgentPatch) returns (err: Outcome<Error>)
      requires Valid()
      modifies this, adapters.Values
      ensures Valid() && Turnover() && providers == old(providers)
      ensures patch == NO_AGENT ==> err == Fail(EmptyPatch)
      ensures patch != NO_AGENT ==>
                var e := AgentError(old(providers), old(agent), patch);
                if e.Fail? then err == e
                else err.Pass? || (err == Fail(RebuildFailed) && SomeBuildFails(builder, old(calls), calls))
      ensures err.Pass? ==> agent == PatchAgent(old(agent), patch)
      ensures err.Fail? ==> ConfigUnchanged()
    {
      if patch == NO_AGENT {
        return Fail(EmptyPatch);
      }
      err := ValidateAgent(patch);
      if err.Fail? {
        return;
      }
      AcceptedResolves(providers, agent, patch);
      hide Core, Live, Chain, AgentError;
      var next := PatchAgent(agent, patch);
      if next.maxTokens != agent.maxTokens || next.temperature != agent.temperature {
        err := Retune(next);
      } else {
        err := Reroute(next);
      }
    }

    /** Sets the whole chain; duplicates among the fallbacks collapse. */
    method ReplaceChain(chain: seq<string>) returns (err: Outcome<Error>)
      requires Valid()
      modifies this, adapters.Values
      ensures Valid() && Turnover()
      ensures chain == [] ==> err == Fail(EmptyChain)
      ensures err.Fail? ==> ConfigUnchanged()
      ensures err.Pass? ==> chain != [] && Chain(agent) == Effective(chain[0], chain[1..])
      ensures err.Pass? ==> (Chain(agent) == chain <==> Distinct(chain) && chain[0] != "")
    {
      if chain == [] {
        return Fail(EmptyChain);
      }
      hide AgentError, Effective, Core, Live;
      err := UpdateAgent(NO_AGENT.(primary := Some(chain[0]), fallbackChain := Some(chain[1..])));
      WriteThenReadChain(chain);
    }

    // ----- Any sequence of operations -----

    /** One management request. */
    method Step(op: Op) returns (err: Outcome<Error>)
      requires Valid() && Canonical(Chain(agent)) && Proper(op)
      modifies this, adapters.Values
      ensures Valid() && Turnover() && Canonical(Chain(agent))
      ensures err.Fail? ==> ConfigUnchanged()
    {
      ghost var before := agent;
      NoEmptyEntry(providers, agent, adapters);
      hide Core, Live, Effective, HasLegacyRef, WithEndpoint, WithoutEndpoint, InputFor, Usable,
           AfterCreds, AfterProviderDisable, AfterEndpointDisable, AfterAutoFill, AfterDelete, AgentError, PatchAgent;
      match op {
        case Creds(name, patch) =>
          err := UpdateProviderCreds(name, patch);
          if err.Pass? {
            ghost var disabling := patch.disabled == Some(true);
            ghost var first :| FillChoice(before, name, providers[name], disabling, first) &&
                               agent == AfterCreds(before, name, disabling, first);
            CredsCanonical(before, name, disabling, first);
          }
        case NewProvider(name, cfg) =>
          err := AddProvider(name, cfg);
        case NewEndpoint(p, e, ep) =>
          err := AddEndpoint(p, e, ep);
          FillCanonical(providers, before, Ref(p, e));
        case ChangeEndpoint(p, e, patch) =>
          err := UpdateEndpoint(p, e, patch);
          EndpointCanonical(providers, before, Ref(p, e), patch.disabled == Some(true));
        case DropEndpoint(p, e) =>
          CanonicalHasNoLegacy(Chain(agent), Ref(p, e));
          err := DeleteEndpoint(p, e);
          DeleteCanonical(before, Format(Ref(p, e)));
        case ChangeAgent(patch) =>
          err := UpdateAgent(patch);
          AgentCanonical(before, patch);
        case SetWholeChain(chain) =>
          err := ReplaceChain(chain);
          if err.Pass? {
            WholeChainCanonical(chain);
          }
      }
    }

    /** A step, seen from all adapters cached so far. */
    method TrackedStep(op: Op, ghost seen: set<Adapter>) returns (err: Outcome<Error>, ghost seen': set<Adapter>)
      requires Valid() && Canonical(Chain(agent)) && Proper(op)
      requires adapters.Values <= seen
      requires forall a :: a in seen ==> (a.closed <==> a !in adapters.Values)
      modifies this, adapters.Values
      ensures Valid() && Canonical(Chain(agent))
      ensures seen' == seen + adapters.Values && forall a :: a in seen' ==> a in seen || fresh(a)
      ensures forall a :: a in seen' ==> (a.closed <==> a !in adapters.Values)
    {
      err := Step(op);
      seen' := seen + adapters.Values;
    }

    /** Whatever requests arrive in whatever order, as long as references are
        written "provider:endpoint": the invariant holds throughout, and an
        adapter that was in the cache before or after any of the requests is shut
        down exactly when it has left the cache. */
    method Run(ops: seq<Op>) returns (errs: seq<Outcome<Error>>, ghost caches: seq<Cache>)
      requires Valid() && Canonical(Chain(agent)) && forall op :: op in ops ==> Proper(op)
      modifies this, adapters.Values
      ensures Valid() && Canonical(Chain(agent)) && |errs| == |ops|
      ensures |caches| == |ops| + 1 && caches[0] == old(adapters) && caches[|ops|] == adapters
      ensures forall k, a :: 0 <= k < |caches| && a in caches[k].Values ==> (a.closed <==> a !in adapters.Values)
    {
      errs := [];
      caches := [adapters];
      ghost var seen := adapters.Values;
      while |errs| < |ops|
        invariant |errs| <= |ops|
        invariant Valid() && Canonical(Chain(agent))
        invariant |caches| == |errs| + 1 && caches[0] == old(adapters) && caches[|errs|] == adapters
        invariant forall k :: 0 <= k < |caches| ==> caches[k].Values <= seen
        invariant forall a :: a in seen ==> a in old(adapters.Values) || fresh(a)
        invariant forall a :: a in seen ==> (a.closed <==> a !in adapters.Values)
      {
        var err;
        err, seen := TrackedStep(ops[|errs|], seen);
        errs := errs + [err];
        caches := caches + [adapters];
      }
    }
  }

  /** What a valid manager serves: no dispatcher exactly when the chain is empty;
      otherwise its i-th adapter is open, was built from the present credentials,
      endpoint and tuning of the i-th reference, and is skipped exactly when
      the provider or the endpoint is disabled. */
  lemma DispatcherServesChain(m: Manager)
    requires m.Valid()
    ensures m.current == null <==> Chain(m.agent) == []
    ensures m.current != null ==>
              && m.current.names == Chain(m.agent)
              && |m.current.providers| == |m.current.disabled| == |m.current.names|
              && forall i :: 0 <= i < |m.current.names| ==>
                   && Resolves(m.providers, m.current.names[i])
                   && !m.current.providers[i].closed
                   && BuiltFrom(m.current.providers[i].built, m.providers, m.agent, Parse(m.current.names[i]).value)
                   && m.current.disabled[i] == (var r := Parse(m.current.names[i]).value;
                                                m.providers[r.prov].disabled || m.providers[r.prov].endpoints[r.ep].disabled)
  {
    hide Effective, Dedup, Format, InputFor, BuiltFrom;
    if m.current != null {
      forall i | 0 <= i < |m.current.names|
        ensures Resolves(m.providers, m.current.names[i])
        ensures !m.current.providers[i].closed
        ensures BuiltFrom(m.current.providers[i].built, m.providers, m.agent, Parse(m.current.names[i]).value)
        ensures m.current.disabled[i] == Off(m.providers, m.current.names[i])
      {
        assert m.current.names[i] in Chain(m.agent);
        CachedForRef(m.providers, m.agent, m.adapters, m.current.names[i]);
        InputReads(m.providers, m.agent, Parse(m.current.names[i]).value);
      }
    }
  }
}

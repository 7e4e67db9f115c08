/** Session statistics: the tracker, its snapshots and its restoration
    (internal/metric/sessionstats/tracker.go). */
module Stats {
  import opened Common

  /** Token counts and the number of model calls. */
  datatype Counts = Counts(input: int, output: int, cacheRead: int, cacheWrite: int, thinking: int, calls: int)

  const ZERO := Counts(0, 0, 0, 0, 0, 0)

  function Plus(a: Counts, b: Counts): Counts {
    Counts(a.input + b.input, a.output + b.output, a.cacheRead + b.cacheRead, a.cacheWrite + b.cacheWrite,
           a.thinking + b.thinking, a.calls + b.calls)
  }

  function Minus(a: Counts, b: Counts): Counts {
    Counts(a.input - b.input, a.output - b.output, a.cacheRead - b.cacheRead, a.cacheWrite - b.cacheWrite,
           a.thinking - b.thinking, a.calls - b.calls)
  }

  predicate AtMost(a: Counts, b: Counts) {
    && a.input <= b.input && a.output <= b.output && a.cacheRead <= b.cacheRead && a.cacheWrite <= b.cacheWrite
    && a.thinking <= b.thinking && a.calls <= b.calls
  }

  datatype SubAgent = SubAgent(runId: string, agentId: string, agentType: string, subagentType: string, model: string,
                               counts: Counts, totalTokens: int, durationMs: int, status: string)

  datatype Window = Window(used: int, limit: int, history: int, toolResults: int, systemPrompt: int)

  datatype ModelRow = ModelRow(model: string, counts: Counts)

  datatype Snapshot = Snapshot(sessionId: string, updatedAt: int, total: Counts, latencyTotal: int, latencyAvg: int,
                               window: Window, toolCalls: int, perModel: seq<ModelRow>, subAgents: seq<SubAgent>)

  // ----- Sums over tables -----

  ghost function Sum(m: map<string, Counts>): Counts
    decreases |m|
  {
    if m == map[] then ZERO
    else
      var k := SomeKey(m);
      Plus(m[k], Sum(m - {k}))
  }

  lemma PlusFacts(a: Counts, b: Counts, c: Counts)
    ensures Plus(a, Plus(b, c)) == Plus(Plus(a, b), c) == Plus(Plus(a, c), b)
    ensures Plus(a, b) == Plus(b, a) && Plus(a, ZERO) == a == Plus(ZERO, a) && Plus(Minus(a, b), b) == a
  {
  }

  lemma Remainder(a: Counts, b: Counts)
    ensures Plus(b, Minus(a, b)) == a
  {
  }

  ghost function SomeKey(m: map<string, Counts>): (k: string)
    requires m != map[]
    ensures k in m
  {
    var k :| k in m;
    k
  }

  /** Any entry may be taken out first. */
  lemma {:induction false} SumTakeOut(m: map<string, Counts>, k: string)
    requires k in m
    ensures Sum(m) == Plus(m[k], Sum(m - {k}))
    decreases |m|
  {
    var j := SomeKey(m);
    if j != k {
      var rest := m - {j} - {k};
      assert m - {k} - {j} == rest;
      SumTakeOut(m - {j}, k);
      SumTakeOut(m - {k}, j);
      PlusFacts(m[j], m[k], Sum(rest));
      PlusFacts(m[k], m[j], Sum(rest));
    }
  }

  /** Adding to one entry, which may be new, adds to the sum. */
  lemma SumGrow(m: map<string, Counts>, k: string, c: Counts)
    ensures Sum(m[k := Plus(if k in m then m[k] else ZERO, c)]) == Plus(Sum(m), c)
  {
    var before := if k in m then m[k] else ZERO;
    var n := m[k := Plus(before, c)];
    SumTakeOut(n, k);
    assert n - {k} == m - {k};
    var rest := Sum(m - {k});
    if k in m {
      SumTakeOut(m, k);
    } else {
      assert m - {k} == m;
    }
    PlusFacts(before, rest, c);
  }

  ghost function CountsOf(subs: map<string, SubAgent>): map<string, Counts> {
    map k | k in subs :: subs[k].counts
  }

  ghost predicate RowOk(k: string, s: SubAgent) {
    k != "" && s.runId == k && s.totalTokens == s.counts.input + s.counts.output
  }

  /** What one finished call adds; a call that failed before reporting usage adds only itself. */
  function CallCounts(usage: Option<Counts>): Counts {
    if usage.Some? then usage.value.(calls := 1) else ZERO.(calls := 1)
  }

  /** A reported usage is counted field by field; a call without one counts as a call only. */
  lemma CallReads(before: Counts, usage: Option<Counts>)
    ensures var after := Plus(before, CallCounts(usage));
            && after.calls == before.calls + 1
            && (usage.Some? ==>
                  && after.input == before.input + usage.value.input && after.output == before.output + usage.value.output
                  && after.cacheRead == before.cacheRead + usage.value.cacheRead
                  && after.cacheWrite == before.cacheWrite + usage.value.cacheWrite
                  && after.thinking == before.thinking + usage.value.thinking)
            && (usage.None? ==> after == before.(calls := before.calls + 1))
  {
  }

  lemma OneCall(total: Counts, rest: Counts, usage: Option<Counts>)
    ensures Plus(total, CallCounts(usage)).calls == total.calls + 1
    ensures AtMost(ZERO, rest) && (usage.Some? ==> AtMost(ZERO.(calls := usage.value.calls), usage.value)) ==>
              AtMost(ZERO, Plus(rest, CallCounts(usage)))
  {
  }

  function Relabel(known: string, model: string): string {
    if known == "" then model else if known != model && known != "mixed" then "mixed" else known
  }

  /** The label of a sub-agent's row after calls to these models. */
  function LabelAfter(models: seq<string>): string {
    if models == [] then "" else Relabel(LabelAfter(models[..|models| - 1]), models[|models| - 1])
  }

  /** The row keeps the first model that was named as long as every later call is to it,
      and is labelled "mixed" from the first other one on. */
  lemma {:induction false} LabelReads(models: seq<string>, i: nat)
    requires i < |models| && models[i] != "" && forall k :: 0 <= k < i ==> models[k] == ""
    ensures LabelAfter(models) == if forall k :: i <= k < |models| ==> models[k] == models[i] then models[i] else "mixed"
    decreases |models|
  {
    var n := |models| - 1;
    if i < n {
      LabelReads(models[..n], i);
    } else {
      NoLabel(models[..n]);
    }
  }

  lemma {:induction false} NoLabel(models: seq<string>)
    requires forall k :: 0 <= k < |models| ==> models[k] == ""
    ensures LabelAfter(models) == ""
  {
    if models != [] {
      NoLabel(models[..|models| - 1]);
    }
  }

  /** A call adds to its row what it used, and the row's total is input plus output. */
  lemma RowReads(s: SubAgent, model: string, usage: Option<Counts>)
    ensures var t := RowAfter(s, model, CallCounts(usage));
            && t.(counts := s.counts, totalTokens := s.totalTokens, model := s.model) == s
            && t.counts == Plus(s.counts, CallCounts(usage)) && t.totalTokens == t.counts.input + t.counts.output
            && t.model == Relabel(s.model, model)
  {
  }

  function RowAfter(s: SubAgent, model: string, c: Counts): SubAgent {
    var counts := Plus(s.counts, c);
    s.(counts := counts, totalTokens := counts.input + counts.output, model := Relabel(s.model, model))
  }

  /** c was added to the model's row, which may be new; a call without a model has no row. */
  ghost predicate ModelCounted(before: map<string, Counts>, after: map<string, Counts>, model: string, c: Counts) {
    && (forall k :: k in after <==> k in before || (k == model && model != ""))
    && (forall k :: k in after ==>
          after[k] == if k != model then before[k] else Plus(if k in before then before[k] else ZERO, c))
  }

  /** c was added to the row of the sub-agent, if it has one. */
  ghost predicate SubAgentCounted(before: map<string, SubAgent>, after: map<string, SubAgent>, runId: string,
                                  model: string, c: Counts)
  {
    && after.Keys == before.Keys
    && forall k :: k in after ==> after[k] == if k == runId then RowAfter(before[k], model, c) else before[k]
  }

  /** The order lists every row exactly once. */
  ghost predicate Rows(subs: map<string, SubAgent>, order: seq<string>) {
    && (forall k :: k in subs ==> RowOk(k, subs[k]))
    && (forall i, j :: 0 <= i < j < |order| ==> order[i] != order[j])
    && (forall k :: k in subs <==> k in order)
  }

  lemma HasFirst<T>(s: seq<T>)
    ensures s == [] || s[0] in s
  {
  }

  lemma AddRow(subs: map<string, SubAgent>, order: seq<string>, k: string, row: SubAgent)
    requires Rows(subs, order) && k !in subs && RowOk(k, row)
    ensures Rows(subs[k := row], order + [k])
  {
  }

  lemma NewRowAddsNothing(m: map<string, SubAgent>, k: string, row: SubAgent)
    requires k !in m && row.counts == ZERO
    ensures Sum(CountsOf(m[k := row])) == Sum(CountsOf(m))
  {
    SumGrow(CountsOf(m), k, ZERO);
    assert CountsOf(m[k := row]) == CountsOf(m)[k := ZERO];
  }

  lemma NothingCounted()
    ensures Sum(map[]) == ZERO && Sum(CountsOf(map[])) == ZERO
  {
  }

  // ----- Tables as lists -----

  ghost predicate Lists(rows: seq<ModelRow>, m: map<string, Counts>) {
    && (forall i, j :: 0 <= i < j < |rows| ==> rows[i].model != rows[j].model)
    && (forall i :: 0 <= i < |rows| ==> rows[i].model in m && m[rows[i].model] == rows[i].counts)
    && (forall k :: k in m ==> exists i :: 0 <= i < |rows| && rows[i].model == k)
  }

  lemma ListOneMore(rows: seq<ModelRow>, m: map<string, Counts>, k: string, c: Counts)
    requires Lists(rows, m) && k !in m
    ensures Lists(rows + [ModelRow(k, c)], m[k := c])
  {
    var r, n := rows + [ModelRow(k, c)], m[k := c];
    forall x | x in n ensures exists i :: 0 <= i < |r| && r[i].model == x {
      if x == k {
        assert r[|rows|].model == x;
      } else {
        var i :| 0 <= i < |rows| && rows[i].model == x;
        assert r[i].model == x;
      }
    }
  }

  ghost predicate ListsSubs(rows: seq<SubAgent>, order: seq<string>, m: map<string, SubAgent>) {
    && |rows| == |order|
    && forall i :: 0 <= i < |rows| ==> order[i] in m && rows[i] == m[order[i]]
  }

  /** A snapshot that a tracker can have produced. */
  ghost predicate WellFormed(s: Snapshot) {
    && (forall i, j :: 0 <= i < j < |s.perModel| ==> s.perModel[i].model != s.perModel[j].model)
    && (forall i :: 0 <= i < |s.perModel| ==> s.perModel[i].model != "")
    && (forall i, j :: 0 <= i < j < |s.subAgents| ==> s.subAgents[i].runId != s.subAgents[j].runId)
    && (forall i :: 0 <= i < |s.subAgents| ==> RowOk(s.subAgents[i].runId, s.subAgents[i]))
    && s.total.calls >= 0
  }

  /** Equal but for the order of the per-model rows. */
  ghost predicate SameData(a: Snapshot, b: Snapshot) {
    b == a.(perModel := b.perModel) && multiset(a.perModel) == multiset(b.perModel)
  }

  class Tracker {
    const sessionId: string
    var total: Counts
    var latencyTotal: int
    var latencyAvg: int
    var toolCalls: int
    var window: Window
    var updatedAt: int
    var perModel: map<string, Counts>
    var subAgents: map<string, SubAgent>
    var subOrder: seq<string>
    /** What calls without a model, and calls of no known sub-agent, have added. */
    ghost var nameless: Counts
    ghost var unattributed: Counts

    /** The totals are what the models add up to, and what the sub-agents add up to, plus the rest. */
    ghost predicate Conserved()
      reads this
    {
      && total == Plus(Sum(perModel), nameless)
      && total == Plus(Sum(CountsOf(subAgents)), unattributed)
    }

    ghost predicate Valid()
      reads this
    {
      Conserved() && total.calls >= 0 && "" !in perModel && RowsOk()
    }

    ghost predicate RowsOk()
      reads this`subAgents, this`subOrder
    {
      Rows(subAgents, subOrder)
    }

    /** Nothing negative was ever reported for the main loop, so that sub-agents can only
        account for a part of the totals. */
    ghost predicate PartOfTotal()
      reads this
    {
      AtMost(ZERO, unattributed)
    }

    constructor (sessionId: string)
      ensures Valid() && PartOfTotal() && this.sessionId == sessionId && Pristine()
      ensures nameless == ZERO && unattributed == ZERO
    {
      this.sessionId := sessionId;
      total, latencyTotal, latencyAvg, toolCalls := ZERO, 0, 0, 0;
      window, updatedAt := Window(0, 0, 0, 0, 0), 0;
      perModel, subAgents, subOrder := map[], map[], [];
      nameless, unattributed := ZERO, ZERO;
      new;
      NothingCounted();
      PlusFacts(ZERO, ZERO, ZERO);
      hide Sum, CountsOf, Plus;
    }

    predicate Pristine()
      reads this
    {
      total.calls <= 0 && toolCalls <= 0 && |perModel| == 0 && |subAgents| == 0
    }

    /** RecordLLMCall: the totals, the model's row and the sub-agent's row all move by the
        same amount, and what has no row is accounted for separately. */
    method RecordLLMCall(model: string, runId: string, usage: Option<Counts>, latencyMs: int, now: int)
      requires Valid()
      modifies this
      ensures Valid()
      ensures total == Plus(old(total), CallCounts(usage))
      ensures total.input == old(total).input + (if usage.Some? then usage.value.input else 0)
      ensures total.output == old(total).output + (if usage.Some? then usage.value.output else 0)
      ensures total.cacheRead == old(total).cacheRead + (if usage.Some? then usage.value.cacheRead else 0)
      ensures total.cacheWrite == old(total).cacheWrite + (if usage.Some? then usage.value.cacheWrite else 0)
      ensures total.thinking == old(total).thinking + (if usage.Some? then usage.value.thinking else 0)
      ensures total.calls == old(total).calls + 1
      ensures nameless == if model == "" then Plus(old(nameless), CallCounts(usage)) else old(nameless)
      ensures unattributed == if runId in old(subAgents) then old(unattributed) else Plus(old(unattributed), CallCounts(usage))
      ensures ModelCounted(old(perModel), perModel, model, CallCounts(usage))
      ensures SubAgentCounted(old(subAgents), subAgents, runId, model, CallCounts(usage)) && subOrder == old(subOrder)
      ensures latencyTotal == old(latencyTotal) + latencyMs && latencyAvg == Quotient(latencyTotal, total.calls)
      ensures toolCalls == old(toolCalls) && window == old(window) && updatedAt == now
      ensures old(PartOfTotal()) && (usage.Some? ==> AtMost(ZERO.(calls := usage.value.calls), usage.value)) ==> PartOfTotal()
    {
      OneCall(total, unattributed, usage);
      CallReads(total, usage);
      hide Sum, RowsOk, Rows, CountsOf, RowAfter, Plus, CallCounts, AtMost, Quotient, ModelCounted, SubAgentCounted;
      var c := CallCounts(usage);
      total := Plus(total, c);
      latencyTotal := latencyTotal + latencyMs;
      latencyAvg := Quotient(latencyTotal, total.calls);
      AddToModel(model, c);
      AddToSubAgent(runId, model, c);
      updatedAt := now;
    }

    method AddToModel(model: string, c: Counts)
      requires "" !in perModel
      modifies this`perModel, this`nameless
      ensures Plus(Sum(perModel), nameless) == Plus(Plus(Sum(old(perModel)), old(nameless)), c)
      ensures nameless == if model == "" then Plus(old(nameless), c) else old(nameless)
      ensures ModelCounted(old(perModel), perModel, model, c) && "" !in perModel
    {
      PlusFacts(Sum(perModel), nameless, c);
      SumGrow(perModel, model, c);
      hide Sum, Plus;
      if model != "" {
        var row := if model in perModel then perModel[model] else ZERO;
        perModel := perModel[model := Plus(row, c)];
      } else {
        nameless := Plus(nameless, c);
      }
    }

    method AddToSubAgent(runId: string, model: string, c: Counts)
      requires RowsOk()
      modifies this`subAgents, this`unattributed
      ensures RowsOk()
      ensures Plus(Sum(CountsOf(subAgents)), unattributed) == Plus(Plus(Sum(CountsOf(old(subAgents))), old(unattributed)), c)
      ensures unattributed == if runId in old(subAgents) then old(unattributed) else Plus(old(unattributed), c)
      ensures SubAgentCounted(old(subAgents), subAgents, runId, model, c)
    {
      PlusFacts(Sum(CountsOf(subAgents)), unattributed, c);
      SumGrow(CountsOf(subAgents), runId, c);
      hide Sum, Plus;
      if runId in subAgents && runId != "" {
        var row := RowAfter(subAgents[runId], model, c);
        assert CountsOf(subAgents[runId := row]) == CountsOf(subAgents)[runId := row.counts];
        subAgents := subAgents[runId := row];
      } else {
        unattributed := Plus(unattributed, c);
      }
    }

    method StartSubAgent(runId: string, agentId: string, agentType: string, subagentType: string, model: string, now: int)
      requires Valid()
      modifies this`subAgents, this`subOrder, this`updatedAt
      ensures Valid()
      ensures runId == "" || runId in old(subAgents) ==>
                subAgents == old(subAgents) && subOrder == old(subOrder) && updatedAt == old(updatedAt)
      ensures runId != "" && runId !in old(subAgents) ==>
                && subAgents == old(subAgents)[runId := SubAgent(runId, agentId, agentType, subagentType, model, ZERO, 0, 0, "running")]
                && subOrder == old(subOrder) + [runId] && updatedAt == now
    {
      hide Valid;
      if runId == "" || runId in subAgents {
        return;
      }
      var row := SubAgent(runId, agentId, agentType, subagentType, model, ZERO, 0, 0, "running");
      OpenRow(row, now);
    }

    method OpenRow(row: SubAgent, now: int)
      requires Valid() && row.runId !in subAgents && RowOk(row.runId, row) && row.counts == ZERO
      modifies this`subAgents, this`subOrder, this`updatedAt
      ensures Valid()
      ensures subAgents == old(subAgents)[row.runId := row] && subOrder == old(subOrder) + [row.runId] && updatedAt == now
    {
      NewRowAddsNothing(subAgents, row.runId, row);
      AddRow(subAgents, subOrder, row.runId, row);
      hide *;
      InsertRow(row, now);
    }

    method InsertRow(row: SubAgent, now: int)
      requires Valid() && Rows(subAgents[row.runId := row], subOrder + [row.runId])
      requires Sum(CountsOf(subAgents[row.runId := row])) == Sum(CountsOf(subAgents))
      modifies this`subAgents, this`subOrder, this`updatedAt
      ensures Valid()
      ensures subAgents == old(subAgents)[row.runId := row] && subOrder == old(subOrder) + [row.runId] && updatedAt == now
    {
      hide Sum, CountsOf, Plus, Rows;
      subAgents := subAgents[row.runId := row];
      subOrder := subOrder + [row.runId];
      updatedAt := now;
    }

    method FinishSubAgent(runId: string, status: string, durationMs: int, now: int)
      requires Valid()
      modifies this`subAgents, this`updatedAt
      ensures Valid()
      ensures runId !in old(subAgents) ==> subAgents == old(subAgents) && updatedAt == old(updatedAt)
      ensures runId in old(subAgents) ==>
                && subAgents == old(subAgents)[runId := old(subAgents)[runId].(status := status, durationMs := durationMs)]
                && updatedAt == now
    {
      if runId == "" || runId !in subAgents {
        return;
      }
      ghost var before := subAgents;
      subAgents := subAgents[runId := subAgents[runId].(status := status, durationMs := durationMs)];
      assert CountsOf(subAgents) == CountsOf(before);
      updatedAt := now;
    }

    method RecordToolCall(now: int)
      modifies this`toolCalls, this`updatedAt
      ensures toolCalls == old(toolCalls) + 1 && updatedAt == now
      ensures old(Valid()) ==> Valid()
    {
      toolCalls := toolCalls + 1;
      updatedAt := now;
    }

    method UpdateContextWindow(w: Window, now: int)
      modifies this`window, this`updatedAt
      ensures window == w && updatedAt == now
      ensures old(Valid()) ==> Valid()
    {
      window := w;
      updatedAt := now;
    }

    /** Everything that a snapshot shows, apart from the order of the models. */
    ghost predicate Shows(s: Snapshot)
      reads this
    {
      && s.sessionId == sessionId && s.updatedAt == updatedAt && s.total == total
      && s.latencyTotal == latencyTotal && s.latencyAvg == latencyAvg && s.window == window && s.toolCalls == toolCalls
      && Lists(s.perModel, perModel) && ListsSubs(s.subAgents, subOrder, subAgents)
    }

    /** Snapshot; the models come in no particular order. */
    method TakeSnapshot() returns (s: Snapshot)
      requires Valid()
      ensures Shows(s) && WellFormed(s)
    {
      var models := ListModels();
      var subs := [];
      for i := 0 to |subOrder|
        invariant |subs| == i && forall k :: 0 <= k < i ==> subs[k] == subAgents[subOrder[k]]
      {
        if subOrder[i] in subAgents {
          subs := subs + [subAgents[subOrder[i]]];
        }
      }
      s := Snapshot(sessionId, updatedAt, total, latencyTotal, latencyAvg, window, toolCalls, models, subs);
    }

    method ListModels() returns (rows: seq<ModelRow>)
      ensures Lists(rows, perModel)
    {
      rows := [];
      var left := perModel;
      while left != map[]
        invariant forall k :: k in left ==> k in perModel && left[k] == perModel[k]
        invariant Lists(rows, perModel - left.Keys)
        decreases |left|
      {
        var k :| k in left;
        ListOneMore(rows, perModel - left.Keys, k, left[k]);
        assert perModel - (left - {k}).Keys == (perModel - left.Keys)[k := left[k]];
        hide Lists;
        rows := rows + [ModelRow(k, left[k])];
        left := left - {k};
      }
      assert perModel - left.Keys == perModel;
    }

    /** RestoreFrom does nothing once anything was recorded; a fresh tracker takes over
        the whole snapshot, under its own session id. */
    method RestoreFrom(s: Snapshot)
      requires Valid()
      modifies this
      ensures !old(Pristine()) ==>
                && total == old(total) && latencyTotal == old(latencyTotal) && latencyAvg == old(latencyAvg)
                && toolCalls == old(toolCalls) && window == old(window) && updatedAt == old(updatedAt)
                && perModel == old(perModel) && subAgents == old(subAgents) && subOrder == old(subOrder)
                && nameless == old(nameless) && unattributed == old(unattributed)
      ensures old(Pristine()) && WellFormed(s) ==> Shows(s.(sessionId := sessionId))
      ensures !old(Pristine()) || WellFormed(s) ==> Valid()
    {
      if !Pristine() {
        return;
      }
      assert subAgents == map[] && perModel == map[];
      HasFirst(subOrder);
      hide WellFormed, Lists, ListsSubs, Sum, CountsOf, Rows, Plus, Minus;
      TakeOver(s);
    }

    method TakeOver(s: Snapshot)
      requires perModel == map[] && subAgents == map[] && subOrder == []
      modifies this
      ensures WellFormed(s) ==> Shows(s.(sessionId := sessionId)) && Valid()
    {
      hide Lists, ListsSubs, Sum, CountsOf, Rows, Plus, Minus;
      total, latencyTotal, latencyAvg, toolCalls := s.total, s.latencyTotal, s.latencyAvg, s.toolCalls;
      window, updatedAt := s.window, s.updatedAt;
      RestoreModels(s);
      RestoreSubs(s);
      nameless := Minus(total, Sum(perModel));
      unattributed := Minus(total, Sum(CountsOf(subAgents)));
      Remainder(total, Sum(perModel));
      Remainder(total, Sum(CountsOf(subAgents)));
    }

    method RestoreModels(s: Snapshot)
      requires perModel == map[]
      modifies this`perModel
      ensures WellFormed(s) ==> Lists(s.perModel, perModel) && "" !in perModel
    {
      var models := perModel;
      for i := 0 to |s.perModel|
        invariant forall k :: k in models ==> exists j :: 0 <= j < i && s.perModel[j].model == k
        invariant WellFormed(s) ==> forall j :: 0 <= j < i ==>
                    s.perModel[j].model in models && models[s.perModel[j].model] == s.perModel[j].counts
      {
        models := models[s.perModel[i].model := s.perModel[i].counts];
      }
      perModel := models;
    }

    method RestoreSubs(s: Snapshot)
      requires subAgents == map[] && subOrder == []
      modifies this`subAgents, this`subOrder
      ensures WellFormed(s) ==> ListsSubs(s.subAgents, subOrder, subAgents) && RowsOk()
    {
      for i := 0 to |s.subAgents|
        invariant |subOrder| == i && forall j :: 0 <= j < i ==> subOrder[j] == s.subAgents[j].runId
        invariant forall k :: k in subAgents <==> k in subOrder
        invariant WellFormed(s) ==> forall j :: 0 <= j < i ==>
                    s.subAgents[j].runId in subAgents && subAgents[s.subAgents[j].runId] == s.subAgents[j]
      {
        subAgents := subAgents[s.subAgents[i].runId := s.subAgents[i]];
        subOrder := subOrder + [s.subAgents[i].runId];
      }
    }
  }

  /** Two lists of the same table are permutations of each other. */
  lemma {:induction false} ListsPermute(a: seq<ModelRow>, b: seq<ModelRow>, m: map<string, Counts>)
    requires Lists(a, m) && Lists(b, m)
    ensures multiset(a) == multiset(b)
    decreases |a|
  {
    if a == [] {
      NothingListed(b, m);
    } else {
      var n := |a| - 1;
      var k := a[n].model;
      var i :| 0 <= i < |b| && b[i].model == k;
      assert a[n] == b[i];
      ListsLess(a, m, n);
      ListsLess(b, m, i);
      hide Lists;
      ListsPermute(Rest(a, n), Rest(b, i), m - {k});
      TakeOut(a, n);
      TakeOut(b, i);
    }
  }

  lemma NothingListed(b: seq<ModelRow>, m: map<string, Counts>)
    requires Lists([], m) && Lists(b, m)
    ensures b == []
  {
    HasFirst(b);
  }

  lemma TakeOut<T>(s: seq<T>, i: nat)
    requires i < |s|
    ensures multiset(s) == multiset(Rest(s, i)) + multiset{s[i]}
  {
    assert s == s[..i] + [s[i]] + s[i + 1..];
  }

  /** A list without row i. */
  function Rest<T>(s: seq<T>, i: nat): (r: seq<T>)
    requires i < |s|
    ensures |r| == |s| - 1 && forall j :: 0 <= j < |r| ==> r[j] == s[if j < i then j else j + 1]
  {
    s[..i] + s[i + 1..]
  }

  lemma ListsLess(a: seq<ModelRow>, m: map<string, Counts>, i: nat)
    requires Lists(a, m) && i < |a|
    ensures Lists(Rest(a, i), m - {a[i].model})
  {
    hide Rest;
    var r, k := Rest(a, i), a[i].model;
    forall p, q | 0 <= p < q < |r| ensures r[p].model != r[q].model {
      assert a[if p < i then p else p + 1].model != a[if q < i then q else q + 1].model;
    }
    forall j | 0 <= j < |r| ensures r[j].model in m - {k} && m[r[j].model] == r[j].counts {
      var n := if j < i then j else j + 1;
      assert r[j] == a[n] && a[n].model != k;
    }
    forall x | x in m - {k} ensures exists j :: 0 <= j < |r| && r[j].model == x {
      var j :| 0 <= j < |a| && a[j].model == x;
      assert r[if j < i then j else j - 1].model == x;
    }
  }

  /** PartOfTotal says that the sub-agents together never exceed the totals. */
  lemma PartOfTotalMeans(t: Tracker)
    requires t.Valid()
    ensures t.PartOfTotal() <==> AtMost(Sum(CountsOf(t.subAgents)), t.total)
  {
    hide Sum, CountsOf, Rows;
  }

  lemma SameModels(rows: seq<ModelRow>, a: map<string, Counts>, b: map<string, Counts>)
    requires Lists(rows, a) && Lists(rows, b)
    ensures a == b
  {
  }

  lemma SameSubs(rows: seq<SubAgent>, a: map<string, SubAgent>, b: map<string, SubAgent>, orderA: seq<string>, orderB: seq<string>)
    requires Rows(a, orderA) && Rows(b, orderB) && ListsSubs(rows, orderA, a) && ListsSubs(rows, orderB, b)
    ensures orderA == orderB && a == b
  {
    forall i | 0 <= i < |rows| ensures orderA[i] == rows[i].runId == orderB[i] {
      assert RowOk(orderA[i], a[orderA[i]]) && RowOk(orderB[i], b[orderB[i]]);
    }
  }

  lemma SameRest(a: Counts, x: Counts, y: Counts)
    requires Plus(a, x) == Plus(a, y)
    ensures x == y
  {
  }

  /** A reload: snapshot, and restore into a fresh tracker of the same session. The new one
      has every counter and row of the old one, the same calls without a model and without
      a sub-agent, and so sub-agents that stayed within the totals still do. */
  method Reload(t: Tracker) returns (s: Snapshot, reloaded: Tracker)
    requires t.Valid()
    ensures fresh(reloaded) && reloaded.sessionId == t.sessionId && reloaded.Valid()
    ensures t.Shows(s) && reloaded.Shows(s) && WellFormed(s)
    ensures reloaded.perModel == t.perModel && reloaded.subAgents == t.subAgents && reloaded.subOrder == t.subOrder
    ensures reloaded.nameless == t.nameless && reloaded.unattributed == t.unattributed
    ensures reloaded.PartOfTotal() <==> t.PartOfTotal()
  {
    hide Tracker.Valid, Tracker.Shows, Tracker.PartOfTotal, Tracker.Pristine, WellFormed;
    s := t.TakeSnapshot();
    assert s.(sessionId := t.sessionId) == s by {
      ShowsOwnId(t, s);
    }
    reloaded := new Tracker(t.sessionId);
    reloaded.RestoreFrom(s);
    SameTables(s, t, reloaded);
  }

  lemma ShowsOwnId(t: Tracker, s: Snapshot)
    requires t.Shows(s)
    ensures s.sessionId == t.sessionId
  {
  }

  /** Trackers that show the same have the same rows, and the same counts beside the rows. */
  lemma SameTables(s: Snapshot, t: Tracker, r: Tracker)
    requires t.Valid() && r.Valid() && t.Shows(s) && r.Shows(s)
    ensures r.perModel == t.perModel && r.subAgents == t.subAgents && r.subOrder == t.subOrder
    ensures r.nameless == t.nameless && r.unattributed == t.unattributed && (r.PartOfTotal() <==> t.PartOfTotal())
  {
    hide Lists, ListsSubs, Rows, Sum, CountsOf, Plus, AtMost;
    SameModels(s.perModel, t.perModel, r.perModel);
    SameSubs(s.subAgents, t.subAgents, r.subAgents, t.subOrder, r.subOrder);
    SameRest(Sum(t.perModel), t.nameless, r.nameless);
    SameRest(Sum(CountsOf(t.subAgents)), t.unattributed, r.unattributed);
  }

  /** Snapshot, restore into a fresh tracker of the same session, snapshot again: the
      data is the same but for the order of the models. */
  method RoundTrip(t: Tracker) returns (first: Snapshot, second: Snapshot)
    requires t.Valid()
    ensures SameData(first, second)
  {
    hide Tracker.Valid, Lists, WellFormed;
    var reloaded;
    first, reloaded := Reload(t);
    second := reloaded.TakeSnapshot();
    ListsPermute(first.perModel, second.perModel, reloaded.perModel);
    assert first.subAgents == second.subAgents;
  }
}

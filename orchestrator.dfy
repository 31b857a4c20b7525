/** `createGTMConfiguration` of frontend/csvScript.js: the run that turns the parsed records
    into a workspace, a GA4 configuration tag, one variable per distinct parameter and a
    trigger and an event tag per distinct event, collecting what was created and what failed. */
module Orchestrator {
  import opened Wrappers
  import Seqs
  import Text
  import opened Csv
  import opened GtmPayloads
  import opened GtmApi

  /** The values of `gtmConfig` the run reads, and the date part of the workspace name. */
  datatype Context = Context(accountId: string, containerId: string, measurementId: string, date: string)

  /** `processedData`; the two `Map`s are entry lists in insertion order. */
  datatype ProcessedData = ProcessedData(
    workspace: Option<Created>,
    configTag: Option<Created>,
    variables: seq<Created>,
    triggers: seq<Created>,
    tags: seq<Created>,
    errors: seq<string>,
    createdVariables: seq<(string, Created)>,
    createdTriggers: seq<(string, Created)>)

  const Initial: ProcessedData := ProcessedData(None, None, [], [], [], [], [], [])

  /** The data so far and every API call made so far, in order. */
  datatype Trace = Trace(data: ProcessedData, calls: seq<Call>)

  /** A whole run: the final data, the calls, and the message rethrown when the run failed. */
  datatype Run = Run(data: ProcessedData, calls: seq<Call>, thrown: Option<string>)

  /** What the steps after the workspace share: the ids they post under, and the API. */
  datatype Env = Env(accountId: string, containerId: string, workspaceId: string,
                     measurementId: string, api: Call -> Reply)

  const FatalPrefix: string := "Configuration failed: "
  const ConfigTagErrorPrefix: string := "Failed to create GA4 Config tag: "
  const VariableErrorPrefix: string := "Failed to create variable for "
  const EventErrorPrefix: string := "Failed to process event "

  // ---------------------------------------------------------------------------
  // Deduplication (lines 661 and 680)
  // ---------------------------------------------------------------------------

  function ParameterLists(csv: seq<EventRecord>): (r: seq<seq<string>>)
    ensures |r| == |csv|
  {
    seq(|csv|, i requires 0 <= i < |csv| => csv[i].parameters)
  }

  /** `[...new Set(csvData.flatMap(item => item.parameters))]`. */
  function AllParameters(csv: seq<EventRecord>): seq<string> {
    Seqs.Distinct(Seqs.Flatten(ParameterLists(csv)))
  }

  /** `csvData.map(item => [item.eventName, item])`. */
  function EventPairs(csv: seq<EventRecord>): (r: seq<(string, EventRecord)>)
    ensures |r| == |csv|
  {
    seq(|csv|, i requires 0 <= i < |csv| => (csv[i].eventName, csv[i]))
  }

  function EventNames(csv: seq<EventRecord>): (r: seq<string>)
    ensures |r| == |csv|
  {
    seq(|csv|, i requires 0 <= i < |csv| => csv[i].eventName)
  }

  /** `[...new Map(csvData.map(item => [item.eventName, item])).values()]`. */
  function UniqueEvents(csv: seq<EventRecord>): seq<EventRecord> {
    Seqs.Values(Seqs.MapOf(EventPairs(csv)))
  }

  // ---------------------------------------------------------------------------
  // The run, step by step
  // ---------------------------------------------------------------------------

  function WorkspaceCall(ctx: Context): Call {
    CreateWorkspace(ctx.accountId, ctx.containerId, ctx.date)
  }

  function ConfigTagCall(env: Env): Call {
    CreateGA4ConfigTag(env.accountId, env.containerId, env.workspaceId, env.measurementId)
  }

  function VariableCall(env: Env, p: string): Call {
    CreateVariable(env.accountId, env.containerId, env.workspaceId, p)
  }

  function TriggerCall(env: Env, eventName: string): Call {
    CreateTrigger(env.accountId, env.containerId, env.workspaceId, eventName)
  }

  function TagCall(env: Env, e: EventRecord, triggerId: string): Call {
    CreateEventTag(env.accountId, env.containerId, env.workspaceId, e.eventName, e.parameters,
                   triggerId, env.measurementId)
  }

  /** Step 2: the configuration tag; a failure is recorded and the run goes on. */
  function ConfigTagStep(env: Env, t: Trace): Trace {
    var call := ConfigTagCall(env);
    var d := t.data;
    match Outcome(call, env.api(call))
    case Success(tag) => Trace(d.(configTag := Some(tag)), t.calls + [call])
    case Failure(m) => Trace(d.(errors := d.errors + [ConfigTagErrorPrefix + m]), t.calls + [call])
  }

  /** One turn of the variable loop (lines 665-676). */
  function VariableStep(env: Env, t: Trace, p: string): Trace {
    var call := VariableCall(env, p);
    var d := t.data;
    match Outcome(call, env.api(call))
    case Success(v) =>
      Trace(d.(variables := d.variables + [v], createdVariables := Seqs.MapSet(d.createdVariables, p, v)),
            t.calls + [call])
    case Failure(m) => Trace(d.(errors := d.errors + [VariableErrorPrefix + p + ": " + m]), t.calls + [call])
  }

  function VariablesPhase(env: Env, t: Trace, ps: seq<string>): Trace {
    if ps == [] then t else VariableStep(env, VariablesPhase(env, t, ps[..|ps| - 1]), ps[|ps| - 1])
  }

  /** One turn of the event loop (lines 683-708): the trigger, then, only if it was created,
      the tag that it fires; either failure is recorded under the event's name. */
  function EventStep(env: Env, t: Trace, e: EventRecord): Trace {
    var tc := TriggerCall(env, e.eventName);
    var d := t.data;
    match Outcome(tc, env.api(tc))
    case Failure(m) => Trace(d.(errors := d.errors + [EventErrorPrefix + e.eventName + ": " + m]), t.calls + [tc])
    case Success(trigger) =>
      var d1 := d.(triggers := d.triggers + [trigger],
                   createdTriggers := Seqs.MapSet(d.createdTriggers, e.eventName, trigger));
      var gc := TagCall(env, e, trigger.id);
      match Outcome(gc, env.api(gc))
      case Success(tag) => Trace(d1.(tags := d1.tags + [tag]), t.calls + [tc, gc])
      case Failure(m) => Trace(d1.(errors := d1.errors + [EventErrorPrefix + e.eventName + ": " + m]), t.calls + [tc, gc])
  }

  function EventsPhase(env: Env, t: Trace, es: seq<EventRecord>): Trace {
    if es == [] then t else EventStep(env, EventsPhase(env, t, es[..|es| - 1]), es[|es| - 1])
  }

  function EnvOf(ctx: Context, workspaceId: string, api: Call -> Reply): Env {
    Env(ctx.accountId, ctx.containerId, workspaceId, ctx.measurementId, api)
  }

  /** The whole run. A failed workspace ends it at once with the one fatal error, which is
      rethrown; everything after it records its failures and carries on. */
  function Configure(csv: seq<EventRecord>, ctx: Context, api: Call -> Reply): Run {
    var wc := WorkspaceCall(ctx);
    match Outcome(wc, api(wc))
    case Failure(m) => Run(Initial.(errors := [FatalPrefix + m]), [wc], Some(m))
    case Success(ws) =>
      var env := EnvOf(ctx, ws.id, api);
      var t0 := ConfigTagStep(env, Trace(Initial.(workspace := Some(ws)), [wc]));
      var t1 := VariablesPhase(env, t0, AllParameters(csv));
      var t2 := EventsPhase(env, t1, UniqueEvents(csv));
      Run(t2.data, t2.calls, None)
  }

  // ---------------------------------------------------------------------------
  // The run as the source writes it
  // ---------------------------------------------------------------------------

  /** `createGTMConfiguration`. */
  method CreateGtmConfiguration(csv: seq<EventRecord>, ctx: Context, api: Call -> Reply)
    returns (data: ProcessedData, calls: seq<Call>, thrown: Option<string>)
    ensures Run(data, calls, thrown) == Configure(csv, ctx, api)
  {
    data := Initial;
    var wc := WorkspaceCall(ctx);
    calls := [wc];
    var workspace := Outcome(wc, api(wc));
    if workspace.Failure? {
      data := data.(errors := data.errors + [FatalPrefix + workspace.error]);
      return data, calls, Some(workspace.error);
    }
    data := data.(workspace := Some(workspace.value));
    var env := EnvOf(ctx, workspace.value.id, api);

    var cc := ConfigTagCall(env);
    calls := calls + [cc];
    var configTag := Outcome(cc, api(cc));
    if configTag.Success? {
      data := data.(configTag := Some(configTag.value));
    } else {
      data := data.(errors := data.errors + [ConfigTagErrorPrefix + configTag.error]);
    }

    var allParameters := AllParameters(csv);
    data, calls := CreateVariables(env, data, calls, allParameters);
    var uniqueEvents := UniqueEvents(csv);
    data, calls := ProcessEvents(env, data, calls, uniqueEvents);
    thrown := None;
  }

  /** Step 4: one variable per parameter. */
  method CreateVariables(env: Env, data0: ProcessedData, calls0: seq<Call>, ps: seq<string>)
    returns (data: ProcessedData, calls: seq<Call>)
    ensures Trace(data, calls) == VariablesPhase(env, Trace(data0, calls0), ps)
  {
    data, calls := data0, calls0;
    for i := 0 to |ps|
      invariant Trace(data, calls) == VariablesPhase(env, Trace(data0, calls0), ps[..i])
    {
      var parameter := ps[i];
      var call := VariableCall(env, parameter);
      calls := calls + [call];
      var variable := Outcome(call, env.api(call));
      if variable.Success? {
        data := data.(variables := data.variables + [variable.value],
                      createdVariables := Seqs.MapSet(data.createdVariables, parameter, variable.value));
      } else {
        data := data.(errors := data.errors + [VariableErrorPrefix + parameter + ": " + variable.error]);
      }
      assert ps[..i + 1][..i] == ps[..i];
    }
    assert ps[..|ps|] == ps;
  }

  /** Step 5: a trigger and then a tag per event. */
  method ProcessEvents(env: Env, data0: ProcessedData, calls0: seq<Call>, es: seq<EventRecord>)
    returns (data: ProcessedData, calls: seq<Call>)
    ensures Trace(data, calls) == EventsPhase(env, Trace(data0, calls0), es)
  {
    data, calls := data0, calls0;
    for i := 0 to |es|
      invariant Trace(data, calls) == EventsPhase(env, Trace(data0, calls0), es[..i])
    {
      EventsPhaseSnoc(env, Trace(data0, calls0), es, i);
      data, calls := ProcessEvent(env, data, calls, es[i]);
    }
    assert es[..|es|] == es;
  }

  /** One turn of the event loop, with its `try`/`catch`. */
  method ProcessEvent(env: Env, data0: ProcessedData, calls0: seq<Call>, eventData: EventRecord)
    returns (data: ProcessedData, calls: seq<Call>)
    ensures Trace(data, calls) == EventStep(env, Trace(data0, calls0), eventData)
  {
    data, calls := data0, calls0;
    var tc := TriggerCall(env, eventData.eventName);
    calls := calls + [tc];
    var trigger := Outcome(tc, env.api(tc));
    if trigger.Failure? {
      data := data.(errors := data.errors + [EventErrorPrefix + eventData.eventName + ": " + trigger.error]);
      return;
    }
    data := data.(triggers := data.triggers + [trigger.value],
                  createdTriggers := Seqs.MapSet(data.createdTriggers, eventData.eventName, trigger.value));
    var gc := TagCall(env, eventData, trigger.value.id);
    calls := calls + [gc];
    var tag := Outcome(gc, env.api(gc));
    if tag.Success? {
      data := data.(tags := data.tags + [tag.value]);
    } else {
      data := data.(errors := data.errors + [EventErrorPrefix + eventData.eventName + ": " + tag.error]);
    }
  }

  lemma EventsPhaseSnoc(env: Env, t: Trace, es: seq<EventRecord>, i: nat)
    requires i < |es|
    ensures EventsPhase(env, t, es[..i + 1]) == EventStep(env, EventsPhase(env, t, es[..i]), es[i])
  {
    assert es[..i + 1][..i] == es[..i];
  }

  // ---------------------------------------------------------------------------
  // What the calls were for
  // ---------------------------------------------------------------------------

  function VariableParam(c: Call): Option<string> {
    if c.CreateVariable? then Some(c.parameterName) else None
  }

  function TriggerEvent(c: Call): Option<string> {
    if c.CreateTrigger? then Some(c.eventName) else None
  }

  /** The parameter names of the `createVariable` calls, in call order. */
  function VariableParams(calls: seq<Call>): seq<string> {
    Seqs.FilterMap(calls, VariableParam)
  }

  /** The event names of the `createTrigger` calls, in call order. */
  function TriggerEvents(calls: seq<Call>): seq<string> {
    Seqs.FilterMap(calls, TriggerEvent)
  }

  /** Every `createEventTag` call comes straight after the `createTrigger` call for the same
      event, that call succeeded, and the tag is fired by the trigger it created; the tag's
      event name and parameters are those of one of `records`. */
  predicate TagsFollowTriggers(calls: seq<Call>, env: Env, records: seq<EventRecord>) {
    forall i :: 0 <= i < |calls| && calls[i].CreateEventTag? ==>
      && 0 < i
      && calls[i - 1] == TriggerCall(env, calls[i].eventName)
      && env.api(calls[i - 1]) == Ok(calls[i].triggerId)
      && calls[i] == TagCall(env, EventRecord(calls[i].eventName, calls[i].parameters), calls[i].triggerId)
      && EventRecord(calls[i].eventName, calls[i].parameters) in records
  }

  /** The errors after position `from` all start with `prefix`. */
  predicate NewErrorsPrefixed(errors: seq<string>, from: nat, prefix: string) {
    from <= |errors| && forall k :: from <= k < |errors| ==> prefix <= errors[k]
  }

  // ---------------------------------------------------------------------------
  // The variable loop
  // ---------------------------------------------------------------------------

  /** The variable loop touches only `variables`, `createdVariables` and `errors`, and only
      appends `createVariable` calls. */
  lemma {:induction false} VariablesPhaseFrame(env: Env, t: Trace, ps: seq<string>)
    ensures var r := VariablesPhase(env, t, ps);
            && r.data.workspace == t.data.workspace && r.data.configTag == t.data.configTag
            && r.data.triggers == t.data.triggers && r.data.tags == t.data.tags
            && r.data.createdTriggers == t.data.createdTriggers
            && |t.calls| <= |r.calls| && r.calls[..|t.calls|] == t.calls
            && (forall k :: |t.calls| <= k < |r.calls| ==> r.calls[k].CreateVariable?)
  {
    if ps != [] {
      VariablesPhaseFrame(env, t, ps[..|ps| - 1]);
    }
  }

  lemma VariableStepCalls(env: Env, t: Trace, p: string)
    ensures VariableStep(env, t, p).calls == t.calls + [VariableCall(env, p)]
  {
  }

  /** One parameter makes one `createVariable` call and no `createTrigger` call. */
  lemma VariableStepProjections(env: Env, t: Trace, p: string)
    ensures VariableParams(VariableStep(env, t, p).calls) == VariableParams(t.calls) + [p]
    ensures TriggerEvents(VariableStep(env, t, p).calls) == TriggerEvents(t.calls)
  {
    VariableStepCalls(env, t, p);
    Seqs.FilterMapSnoc(t.calls, VariableCall(env, p), VariableParam);
    Seqs.FilterMapSnoc(t.calls, VariableCall(env, p), TriggerEvent);
  }

  /** One `createVariable` call per element of `ps`, in order. */
  lemma {:induction false} VariablesPhaseParams(env: Env, t: Trace, ps: seq<string>)
    ensures VariableParams(VariablesPhase(env, t, ps).calls) == VariableParams(t.calls) + ps
  {
    if ps != [] {
      var init := ps[..|ps| - 1];
      VariablesPhaseParams(env, t, init);
      VariableStepProjections(env, VariablesPhase(env, t, init), ps[|ps| - 1]);
      SnocAssoc(VariableParams(t.calls), init, ps[|ps| - 1], ps);
    }
  }

  /** No `createTrigger` call is made by the variable loop. */
  lemma {:induction false} VariablesPhaseTriggers(env: Env, t: Trace, ps: seq<string>)
    ensures TriggerEvents(VariablesPhase(env, t, ps).calls) == TriggerEvents(t.calls)
  {
    if ps != [] {
      VariablesPhaseTriggers(env, t, ps[..|ps| - 1]);
      VariableStepProjections(env, VariablesPhase(env, t, ps[..|ps| - 1]), ps[|ps| - 1]);
    }
  }

  /** Each parameter ends as a variable or as an error, and the errors it adds all read
      `Failed to create variable for …`. */
  lemma {:induction false} VariablesPhaseCount(env: Env, t: Trace, ps: seq<string>)
    ensures var r := VariablesPhase(env, t, ps);
            && |r.data.variables| + |r.data.errors| == |t.data.variables| + |t.data.errors| + |ps|
            && |t.data.errors| <= |r.data.errors| && r.data.errors[..|t.data.errors|] == t.data.errors
            && NewErrorsPrefixed(r.data.errors, |t.data.errors|, VariableErrorPrefix)
  {
    if ps != [] {
      var init := ps[..|ps| - 1];
      VariablesPhaseCount(env, t, init);
      var mid := VariablesPhase(env, t, init);
      var p := ps[|ps| - 1];
      var call := VariableCall(env, p);
      match Outcome(call, env.api(call))
      case Success(_) =>
      case Failure(m) =>
        var e := VariableErrorPrefix + p + ": " + m;
        assert VariableErrorPrefix <= e;
        assert (mid.data.errors + [e])[..|t.data.errors|] == mid.data.errors[..|t.data.errors|];
    }
  }

  /** `createdVariables` mirrors `variables`: one entry per created variable, in the same
      order, keyed by the parameter whose body it was created from, no key twice. */
  predicate VariablesTracked(d: ProcessedData) {
    && |d.createdVariables| == |d.variables|
    && (forall i :: 0 <= i < |d.variables| ==>
          d.createdVariables[i].1 == d.variables[i] && d.variables[i].body == VariablePayload(d.createdVariables[i].0))
    && Seqs.NoDup(Seqs.Keys(d.createdVariables))
  }

  /** On distinct new parameters the variable loop keeps `createdVariables` in step with
      `variables`; every key is an old one or one of `ps`. */
  lemma {:induction false} VariablesPhaseTracked(env: Env, t: Trace, ps: seq<string>)
    requires VariablesTracked(t.data) && Seqs.NoDup(ps)
    requires forall i :: 0 <= i < |ps| ==> ps[i] !in Seqs.Keys(t.data.createdVariables)
    ensures VariablesTracked(VariablesPhase(env, t, ps).data)
    ensures forall k :: k in Seqs.Keys(VariablesPhase(env, t, ps).data.createdVariables) ==>
              k in Seqs.Keys(t.data.createdVariables) || k in ps
  {
    if ps != [] {
      var init := ps[..|ps| - 1];
      var p := ps[|ps| - 1];
      assert forall k :: k in init ==> k in ps;
      VariablesPhaseTracked(env, t, init);
      var mid := VariablesPhase(env, t, init);
      assert p !in init;
      assert p !in Seqs.Keys(mid.data.createdVariables);
      VariableTrackedStep(env, mid, p);
    }
  }

  lemma VariableTrackedStep(env: Env, t: Trace, p: string)
    requires VariablesTracked(t.data) && p !in Seqs.Keys(t.data.createdVariables)
    ensures VariablesTracked(VariableStep(env, t, p).data)
    ensures Seqs.Keys(VariableStep(env, t, p).data.createdVariables) <= Seqs.Keys(t.data.createdVariables) + [p]
  {
    var d := t.data;
    var call := VariableCall(env, p);
    match Outcome(call, env.api(call))
    case Success(v) =>
      Seqs.MapSetAbsent(d.createdVariables, p, v);
      var created := d.createdVariables + [(p, v)];
      assert Seqs.Keys(created) == Seqs.Keys(d.createdVariables) + [p];
    case Failure(_) =>
  }

  // ---------------------------------------------------------------------------
  // The event loop
  // ---------------------------------------------------------------------------

  lemma EventStepCalls(env: Env, t: Trace, e: EventRecord)
    ensures var tc := TriggerCall(env, e.eventName);
            var tr := Outcome(tc, env.api(tc));
            EventStep(env, t, e).calls
            == t.calls + [tc] + (if tr.Success? then [TagCall(env, e, tr.value.id)] else [])
  {
  }

  /** The event loop touches only `triggers`, `createdTriggers`, `tags` and `errors`, and only
      appends `createTrigger` and `createEventTag` calls. */
  lemma {:induction false} EventsPhaseFrame(env: Env, t: Trace, es: seq<EventRecord>)
    ensures var r := EventsPhase(env, t, es);
            && r.data.workspace == t.data.workspace && r.data.configTag == t.data.configTag
            && r.data.variables == t.data.variables && r.data.createdVariables == t.data.createdVariables
            && |t.calls| <= |r.calls| && r.calls[..|t.calls|] == t.calls
  {
    if es != [] {
      EventsPhaseFrame(env, t, es[..|es| - 1]);
      EventStepCalls(env, EventsPhase(env, t, es[..|es| - 1]), es[|es| - 1]);
    }
  }

  /** One event makes one `createTrigger` call and no `createVariable` call. */
  lemma EventStepProjections(env: Env, t: Trace, e: EventRecord)
    ensures TriggerEvents(EventStep(env, t, e).calls) == TriggerEvents(t.calls) + [e.eventName]
    ensures VariableParams(EventStep(env, t, e).calls) == VariableParams(t.calls)
  {
    EventStepCalls(env, t, e);
    var tc := TriggerCall(env, e.eventName);
    var tr := Outcome(tc, env.api(tc));
    var extra := if tr.Success? then [TagCall(env, e, tr.value.id)] else [];
    Seqs.FilterMapAppend(t.calls + [tc], extra, TriggerEvent);
    Seqs.FilterMapSnoc(t.calls, tc, TriggerEvent);
    Seqs.FilterMapAppend(t.calls + [tc], extra, VariableParam);
    Seqs.FilterMapSnoc(t.calls, tc, VariableParam);
    if tr.Success? {
      Seqs.FilterMapSnoc([], TagCall(env, e, tr.value.id), TriggerEvent);
      Seqs.FilterMapSnoc([], TagCall(env, e, tr.value.id), VariableParam);
      assert [] + [TagCall(env, e, tr.value.id)] == extra;
    }
  }

  /** One `createTrigger` call per element of `es`, in order. */
  lemma {:induction false} EventsPhaseTriggers(env: Env, t: Trace, es: seq<EventRecord>)
    ensures TriggerEvents(EventsPhase(env, t, es).calls) == TriggerEvents(t.calls) + EventNames(es)
  {
    if es != [] {
      var init := es[..|es| - 1];
      var e := es[|es| - 1];
      EventsPhaseTriggers(env, t, init);
      EventStepProjections(env, EventsPhase(env, t, init), e);
      EventNamesSnoc(es);
      SnocAssoc(TriggerEvents(t.calls), EventNames(init), e.eventName, EventNames(es));
    }
  }

  lemma EventNamesSnoc(es: seq<EventRecord>)
    requires es != []
    ensures EventNames(es) == EventNames(es[..|es| - 1]) + [es[|es| - 1].eventName]
  {
  }

  lemma SnocAssoc<T>(a: seq<T>, b: seq<T>, x: T, c: seq<T>)
    requires c == b + [x]
    ensures (a + b) + [x] == a + c
  {
  }

  /** The event loop makes no `createVariable` call. */
  lemma {:induction false} EventsPhaseVariables(env: Env, t: Trace, es: seq<EventRecord>)
    ensures VariableParams(EventsPhase(env, t, es).calls) == VariableParams(t.calls)
  {
    if es != [] {
      EventsPhaseVariables(env, t, es[..|es| - 1]);
      EventStepProjections(env, EventsPhase(env, t, es[..|es| - 1]), es[|es| - 1]);
    }
  }

  /** Each event ends as a tag or as exactly one error; a trigger is kept even when its tag
      fails, so there are never more new tags than new triggers, nor more new triggers than
      events; every error added reads `Failed to process event …`. */
  lemma {:induction false} EventsPhaseCount(env: Env, t: Trace, es: seq<EventRecord>)
    ensures var r := EventsPhase(env, t, es);
            && |r.data.tags| + |r.data.errors| == |t.data.tags| + |t.data.errors| + |es|
            && |t.data.tags| <= |r.data.tags|
            && |r.data.tags| - |t.data.tags| <= |r.data.triggers| - |t.data.triggers| <= |es|
            && |t.data.errors| <= |r.data.errors| && r.data.errors[..|t.data.errors|] == t.data.errors
            && NewErrorsPrefixed(r.data.errors, |t.data.errors|, EventErrorPrefix)
  {
    if es != [] {
      var init := es[..|es| - 1];
      EventsPhaseCount(env, t, init);
      var mid := EventsPhase(env, t, init);
      var e := es[|es| - 1];
      var tc := TriggerCall(env, e.eventName);
      var err := (m: string) => EventErrorPrefix + e.eventName + ": " + m;
      match Outcome(tc, env.api(tc))
      case Failure(m) =>
        assert EventErrorPrefix <= err(m);
        assert (mid.data.errors + [err(m)])[..|t.data.errors|] == mid.data.errors[..|t.data.errors|];
      case Success(trigger) =>
        var gc := TagCall(env, e, trigger.id);
        match Outcome(gc, env.api(gc))
        case Success(_) =>
        case Failure(m) =>
          assert EventErrorPrefix <= err(m);
          assert (mid.data.errors + [err(m)])[..|t.data.errors|] == mid.data.errors[..|t.data.errors|];
    }
  }

  /** `createdTriggers` mirrors `triggers`, keyed by the event whose trigger body it holds. */
  predicate TriggersTracked(d: ProcessedData) {
    && |d.createdTriggers| == |d.triggers|
    && (forall i :: 0 <= i < |d.triggers| ==>
          d.createdTriggers[i].1 == d.triggers[i] && d.triggers[i].body == TriggerPayload(d.createdTriggers[i].0))
    && Seqs.NoDup(Seqs.Keys(d.createdTriggers))
  }

  /** What one event does to `triggers` and `createdTriggers`. */
  lemma EventStepTriggers(env: Env, t: Trace, e: EventRecord)
    ensures var tc := TriggerCall(env, e.eventName);
            var tr := Outcome(tc, env.api(tc));
            var d := t.data;
            var r := EventStep(env, t, e).data;
            && (tr.Success? ==> r.triggers == d.triggers + [tr.value]
                                && r.createdTriggers == Seqs.MapSet(d.createdTriggers, e.eventName, tr.value))
            && (tr.Failure? ==> r.triggers == d.triggers && r.createdTriggers == d.createdTriggers)
  {
  }

  lemma TrackedStep(env: Env, t: Trace, e: EventRecord)
    requires TriggersTracked(t.data) && e.eventName !in Seqs.Keys(t.data.createdTriggers)
    ensures TriggersTracked(EventStep(env, t, e).data)
    ensures Seqs.Keys(EventStep(env, t, e).data.createdTriggers) <= Seqs.Keys(t.data.createdTriggers) + [e.eventName]
  {
    EventStepTriggers(env, t, e);
    var tc := TriggerCall(env, e.eventName);
    var tr := Outcome(tc, env.api(tc));
    var d := t.data;
    if tr.Success? {
      Seqs.MapSetAbsent(d.createdTriggers, e.eventName, tr.value);
      var created := d.createdTriggers + [(e.eventName, tr.value)];
      assert Seqs.Keys(created) == Seqs.Keys(d.createdTriggers) + [e.eventName];
      assert tr.value.body == TriggerPayload(e.eventName);
      var r := EventStep(env, t, e).data;
      assert r.triggers == d.triggers + [tr.value] && r.createdTriggers == created;
    }
  }

  /** On records with distinct new names the event loop keeps `createdTriggers` in step
      with `triggers`. */
  lemma {:induction false} EventsPhaseTracked(env: Env, t: Trace, es: seq<EventRecord>)
    requires TriggersTracked(t.data) && Seqs.NoDup(EventNames(es))
    requires forall i :: 0 <= i < |es| ==> es[i].eventName !in Seqs.Keys(t.data.createdTriggers)
    ensures TriggersTracked(EventsPhase(env, t, es).data)
    ensures forall k :: k in Seqs.Keys(EventsPhase(env, t, es).data.createdTriggers) ==>
              k in Seqs.Keys(t.data.createdTriggers) || k in EventNames(es)
  {
    if es != [] {
      var init := es[..|es| - 1];
      var e := es[|es| - 1];
      assert EventNames(es) == EventNames(init) + [e.eventName];
      Seqs.NoDupSnoc(EventNames(init), e.eventName);
      EventsPhaseTracked(env, t, init);
      var mid := EventsPhase(env, t, init);
      assert forall k :: k in EventNames(init) ==> k in EventNames(es);
      assert e.eventName !in Seqs.Keys(mid.data.createdTriggers);
      TrackedStep(env, mid, e);
    }
  }

  /** The event loop only adds tag calls that follow their trigger, for one of `es`. */
  lemma {:induction false} EventsPhaseTags(env: Env, t: Trace, es: seq<EventRecord>, records: seq<EventRecord>)
    requires TagsFollowTriggers(t.calls, env, records)
    requires forall i :: 0 <= i < |es| ==> es[i] in records
    ensures TagsFollowTriggers(EventsPhase(env, t, es).calls, env, records)
  {
    if es != [] {
      var init := es[..|es| - 1];
      var e := es[|es| - 1];
      EventsPhaseTags(env, t, init, records);
      var mid := EventsPhase(env, t, init);
      EventStepCalls(env, mid, e);
      var tc := TriggerCall(env, e.eventName);
      var tr := Outcome(tc, env.api(tc));
      var calls := EventsPhase(env, t, es).calls;
      var n := |mid.calls|;
      forall i | 0 <= i < |calls| && calls[i].CreateEventTag?
        ensures && 0 < i
                && calls[i - 1] == TriggerCall(env, calls[i].eventName)
                && env.api(calls[i - 1]) == Ok(calls[i].triggerId)
                && calls[i] == TagCall(env, EventRecord(calls[i].eventName, calls[i].parameters), calls[i].triggerId)
                && EventRecord(calls[i].eventName, calls[i].parameters) in records
      {
        if i < n {
          assert calls[i] == mid.calls[i];
          assert calls[i - 1] == mid.calls[i - 1];
        } else {
          assert i == n + 1 && tr.Success?;
          assert calls[i - 1] == tc;
          assert EventRecord(e.eventName, e.parameters) == e;
        }
      }
    }
  }

  /** Each created tag's name, minus `GA4 - Event - `, is one of `names`. */
  predicate TagsNamed(d: ProcessedData, names: seq<string>) {
    forall i :: 0 <= i < |d.tags| ==> ReportedEventName(d.tags[i].body.name, EventTagPrefix) in names
  }

  /** One event adds at most one tag, the one posted for its own name. */
  lemma EventStepTags(env: Env, t: Trace, e: EventRecord)
    ensures var r := EventStep(env, t, e).data;
            || r.tags == t.data.tags
            || (&& |r.tags| == |t.data.tags| + 1 && r.tags[..|t.data.tags|] == t.data.tags
                && r.tags[|t.data.tags|].body.name == EventTagPrefix + e.eventName)
  {
    var tc := TriggerCall(env, e.eventName);
    match Outcome(tc, env.api(tc))
    case Failure(_) =>
    case Success(trigger) =>
      var gc := TagCall(env, e, trigger.id);
      match Outcome(gc, env.api(gc))
      case Success(tag) =>
        assert tag.body == EventTagPayload(e.eventName, e.parameters, trigger.id, env.measurementId);
        assert (t.data.tags + [tag])[..|t.data.tags|] == t.data.tags;
      case Failure(_) =>
  }

  lemma TagsNamedStep(env: Env, t: Trace, e: EventRecord, names: seq<string>)
    requires TagsNamed(t.data, names) && e.eventName in names
    ensures TagsNamed(EventStep(env, t, e).data, names)
  {
    EventStepTags(env, t, e);
    Text.StripPrefix(EventTagPrefix, e.eventName);
    var r := EventStep(env, t, e).data;
    if r.tags != t.data.tags {
      forall i | 0 <= i < |r.tags|
        ensures ReportedEventName(r.tags[i].body.name, EventTagPrefix) in names
      {
        if i < |t.data.tags| {
          assert r.tags[i] == r.tags[..|t.data.tags|][i];
        }
      }
    }
  }

  /** The event loop creates tags only for the names of its events. */
  lemma {:induction false} EventsPhaseTagNames(env: Env, t: Trace, es: seq<EventRecord>, names: seq<string>)
    requires TagsNamed(t.data, names)
    requires forall i :: 0 <= i < |es| ==> es[i].eventName in names
    ensures TagsNamed(EventsPhase(env, t, es).data, names)
  {
    if es != [] {
      EventsPhaseTagNames(env, t, es[..|es| - 1], names);
      TagsNamedStep(env, EventsPhase(env, t, es[..|es| - 1]), es[|es| - 1], names);
    }
  }

  /** The variable loop adds no tag call. */
  lemma VariablesPhaseTags(env: Env, t: Trace, ps: seq<string>, records: seq<EventRecord>)
    requires TagsFollowTriggers(t.calls, env, records)
    ensures TagsFollowTriggers(VariablesPhase(env, t, ps).calls, env, records)
  {
    VariablesPhaseFrame(env, t, ps);
    var calls := VariablesPhase(env, t, ps).calls;
    forall i | 0 <= i < |calls| && calls[i].CreateEventTag?
      ensures && 0 < i
              && calls[i - 1] == TriggerCall(env, calls[i].eventName)
              && env.api(calls[i - 1]) == Ok(calls[i].triggerId)
              && calls[i] == TagCall(env, EventRecord(calls[i].eventName, calls[i].parameters), calls[i].triggerId)
              && EventRecord(calls[i].eventName, calls[i].parameters) in records
    {
      assert i < |t.calls|;
      assert calls[i] == t.calls[i] && calls[i - 1] == t.calls[i - 1];
    }
  }

  // ---------------------------------------------------------------------------
  // The distinct events
  // ---------------------------------------------------------------------------

  /** Each entry of the events `Map` is keyed by its record's own name, and holds the LAST
      record with that name. */
  lemma EventMapEntries(csv: seq<EventRecord>)
    ensures var pairs := EventPairs(csv);
            var m := Seqs.MapOf(pairs);
            forall i :: 0 <= i < |m| ==>
              && m[i].0 in Seqs.Keys(pairs)
              && m[i].1 == Seqs.LastValue(pairs, m[i].0)
              && m[i].1.eventName == m[i].0
  {
    var pairs := EventPairs(csv);
    var m := Seqs.MapOf(pairs);
    Seqs.MapOfLastWins(pairs);
    forall i | 0 <= i < |m|
      ensures m[i].0 in Seqs.Keys(pairs) && m[i].1 == Seqs.LastValue(pairs, m[i].0) && m[i].1.eventName == m[i].0
    {
      assert m[i] in m;
      Seqs.LastValueIn(pairs, m[i].0);
    }
  }

  /** The distinct events are the distinct event names in first-seen order, each carried
      by the LAST record with that name. */
  lemma UniqueEventsLastWins(csv: seq<EventRecord>)
    ensures EventNames(UniqueEvents(csv)) == Seqs.Distinct(EventNames(csv))
    ensures forall i :: 0 <= i < |UniqueEvents(csv)| ==>
              && UniqueEvents(csv)[i].eventName in Seqs.Keys(EventPairs(csv))
              && UniqueEvents(csv)[i] == Seqs.LastValue(EventPairs(csv), UniqueEvents(csv)[i].eventName)
  {
    var pairs := EventPairs(csv);
    var m := Seqs.MapOf(pairs);
    Seqs.MapOfKeys(pairs);
    EventMapEntries(csv);
    assert Seqs.Keys(pairs) == EventNames(csv);
    assert EventNames(UniqueEvents(csv)) == Seqs.Keys(m);
  }

  /** No two distinct events share a name. */
  lemma UniqueEventsNoDup(csv: seq<EventRecord>)
    ensures Seqs.NoDup(EventNames(UniqueEvents(csv)))
  {
    UniqueEventsLastWins(csv);
  }

  // ---------------------------------------------------------------------------
  // The whole run
  // ---------------------------------------------------------------------------

  /** When the workspace fails the run rethrows its message, made exactly the one call, and
      holds only the `Configuration failed: …` error. */
  lemma ConfigureFatal(csv: seq<EventRecord>, ctx: Context, api: Call -> Reply)
    ensures var r := Configure(csv, ctx, api);
            var ws := Outcome(WorkspaceCall(ctx), api(WorkspaceCall(ctx)));
            && (r.thrown.Some? <==> ws.Failure?)
            && (ws.Failure? ==>
                  && r.thrown == Some(ws.error)
                  && r.calls == [WorkspaceCall(ctx)]
                  && r.data == Initial.(errors := [FatalPrefix + ws.error]))
  {
  }

  /** The two loops keep the workspace and the calls made before them. */
  lemma LoopsFrame(env: Env, t0: Trace, ps: seq<string>, es: seq<EventRecord>)
    ensures var r := EventsPhase(env, VariablesPhase(env, t0, ps), es);
            && r.data.workspace == t0.data.workspace
            && |t0.calls| <= |r.calls| && r.calls[..|t0.calls|] == t0.calls
  {
    var t1 := VariablesPhase(env, t0, ps);
    var t2 := EventsPhase(env, t1, es);
    VariablesPhaseFrame(env, t0, ps);
    EventsPhaseFrame(env, t1, es);
    assert t2.calls[..|t0.calls|] == t2.calls[..|t1.calls|][..|t0.calls|];
  }

  /** Otherwise the workspace is kept, and the configuration tag is the next call. */
  lemma ConfigureStart(csv: seq<EventRecord>, ctx: Context, api: Call -> Reply)
    ensures var r := Configure(csv, ctx, api);
            var ws := Outcome(WorkspaceCall(ctx), api(WorkspaceCall(ctx)));
            ws.Success? ==>
              && r.data.workspace == Some(ws.value)
              && |r.calls| >= 2
              && r.calls[..2] == [WorkspaceCall(ctx), ConfigTagCall(EnvOf(ctx, ws.value.id, api))]
  {
    var wc := WorkspaceCall(ctx);
    var ws := Outcome(wc, api(wc));
    if ws.Success? {
      var env := EnvOf(ctx, ws.value.id, api);
      var t0 := ConfigTagStep(env, Trace(Initial.(workspace := Some(ws.value)), [wc]));
      assert t0.calls == [wc, ConfigTagCall(env)] && t0.data.workspace == Some(ws.value);
      LoopsFrame(env, t0, AllParameters(csv), UniqueEvents(csv));
    }
  }

  // ---------------------------------------------------------------------------
  // Counting errors by their prefix
  // ---------------------------------------------------------------------------

  /** Two prefixes that differ at position `k`: no message starts with both. */
  predicate Clash(a: string, b: string, k: nat) {
    k < |a| && k < |b| && a[k] != b[k]
  }

  lemma {:induction false} CountAfter(errors: seq<string>, from: nat, prefix: string, other: string, k: nat)
    requires NewErrorsPrefixed(errors, from, prefix) && Clash(prefix, other, k)
    ensures Seqs.CountPrefixed(errors, prefix) == Seqs.CountPrefixed(errors[..from], prefix) + (|errors| - from)
    ensures Seqs.CountPrefixed(errors, other) == Seqs.CountPrefixed(errors[..from], other)
  {
    var tail := errors[from..];
    assert errors == errors[..from] + tail;
    Seqs.CountPrefixedAppend(errors[..from], tail, prefix);
    Seqs.CountPrefixedAppend(errors[..from], tail, other);
    forall i | 0 <= i < |tail| ensures prefix <= tail[i] && !(other <= tail[i]) {
      assert tail[i] == errors[from + i];
      assert tail[i][k] == prefix[k];
    }
    Seqs.CountPrefixedAllOrNone(tail, prefix);
    Seqs.CountPrefixedAllOrNone(tail, other);
  }

  /** The errors of the two loops, appended in turn after `e0`, are counted by their prefixes. */
  lemma CountThroughLoops(e0: seq<string>, e1: seq<string>, e2: seq<string>)
    requires NewErrorsPrefixed(e1, |e0|, VariableErrorPrefix) && e1[..|e0|] == e0
    requires NewErrorsPrefixed(e2, |e1|, EventErrorPrefix) && e2[..|e1|] == e1
    ensures Seqs.CountPrefixed(e2, VariableErrorPrefix) == Seqs.CountPrefixed(e0, VariableErrorPrefix) + (|e1| - |e0|)
    ensures Seqs.CountPrefixed(e2, EventErrorPrefix) == Seqs.CountPrefixed(e0, EventErrorPrefix) + (|e2| - |e1|)
  {
    CountAfter(e1, |e0|, VariableErrorPrefix, EventErrorPrefix, 10);
    CountAfter(e2, |e1|, EventErrorPrefix, VariableErrorPrefix, 10);
  }

  /** The configuration tag leaves at most its own error, and exactly when the tag was not
      created. */
  lemma ConfigTagErrors(env: Env, t: Trace)
    requires t.data.errors == [] && t.data.configTag == None
    ensures var r := ConfigTagStep(env, t);
            && (r.data.configTag.None? <==> |r.data.errors| == 1)
            && |r.data.errors| <= 1
            && (forall k :: 0 <= k < |r.data.errors| ==> ConfigTagErrorPrefix <= r.data.errors[k])
  {
  }

  /** That error is neither a variable nor an event error. */
  lemma ConfigTagErrorCounts(env: Env, t: Trace)
    requires t.data.errors == []
    ensures Seqs.CountPrefixed(ConfigTagStep(env, t).data.errors, VariableErrorPrefix) == 0
    ensures Seqs.CountPrefixed(ConfigTagStep(env, t).data.errors, EventErrorPrefix) == 0
  {
    var es := ConfigTagStep(env, t).data.errors;
    assert NewErrorsPrefixed(es, 0, ConfigTagErrorPrefix);
    assert Clash(ConfigTagErrorPrefix, VariableErrorPrefix, 17);
    assert Clash(ConfigTagErrorPrefix, EventErrorPrefix, 10);
    CountAfter(es, 0, ConfigTagErrorPrefix, VariableErrorPrefix, 17);
    CountAfter(es, 0, ConfigTagErrorPrefix, EventErrorPrefix, 10);
  }

  // ---------------------------------------------------------------------------
  // The two loops together
  // ---------------------------------------------------------------------------

  /** Started with no variables, the loops make exactly one `createVariable` call per element
      of `ps`, in order. */
  lemma LoopsVariableParams(env: Env, t0: Trace, ps: seq<string>, es: seq<EventRecord>)
    requires VariableParams(t0.calls) == []
    ensures VariableParams(EventsPhase(env, VariablesPhase(env, t0, ps), es).calls) == ps
  {
    var t1 := VariablesPhase(env, t0, ps);
    VariablesPhaseParams(env, t0, ps);
    EventsPhaseVariables(env, t1, es);
  }

  /** Every element of `ps` ends as a variable or as one variable error. */
  lemma LoopsVariableCount(env: Env, t0: Trace, ps: seq<string>, es: seq<EventRecord>)
    requires t0.data.variables == [] && Seqs.CountPrefixed(t0.data.errors, VariableErrorPrefix) == 0
    ensures var r := EventsPhase(env, VariablesPhase(env, t0, ps), es);
            |r.data.variables| + Seqs.CountPrefixed(r.data.errors, VariableErrorPrefix) == |ps|
  {
    var t1 := VariablesPhase(env, t0, ps);
    var t2 := EventsPhase(env, t1, es);
    VariablesPhaseCount(env, t0, ps);
    EventsPhaseCount(env, t1, es);
    EventsPhaseFrame(env, t1, es);
    CountThroughLoops(t0.data.errors, t1.data.errors, t2.data.errors);
  }

  /** On distinct parameters and no variables yet, `createdVariables` ends in step with
      `variables`, keyed by elements of `ps`. */
  lemma LoopsVariablesTracked(env: Env, t0: Trace, ps: seq<string>, es: seq<EventRecord>)
    requires t0.data.variables == [] && t0.data.createdVariables == [] && Seqs.NoDup(ps)
    ensures var r := EventsPhase(env, VariablesPhase(env, t0, ps), es);
            && VariablesTracked(r.data)
            && (forall k :: k in Seqs.Keys(r.data.createdVariables) ==> k in ps)
  {
    var t1 := VariablesPhase(env, t0, ps);
    assert VariablesTracked(t0.data);
    VariablesPhaseTracked(env, t0, ps);
    EventsPhaseFrame(env, t1, es);
  }

  /** Started with no triggers, the loops make exactly one `createTrigger` call per element
      of `es`, in order. */
  lemma LoopsTriggerEvents(env: Env, t0: Trace, ps: seq<string>, es: seq<EventRecord>)
    requires TriggerEvents(t0.calls) == []
    ensures TriggerEvents(EventsPhase(env, VariablesPhase(env, t0, ps), es).calls) == EventNames(es)
  {
    var t1 := VariablesPhase(env, t0, ps);
    VariablesPhaseTriggers(env, t0, ps);
    EventsPhaseTriggers(env, t1, es);
  }

  /** Never more tags than triggers nor more triggers than events, and every event ends as a
      tag or as one event error. */
  lemma LoopsEventCount(env: Env, t0: Trace, ps: seq<string>, es: seq<EventRecord>)
    requires t0.data.triggers == [] && t0.data.tags == []
    requires Seqs.CountPrefixed(t0.data.errors, EventErrorPrefix) == 0
    ensures var r := EventsPhase(env, VariablesPhase(env, t0, ps), es);
            && |r.data.tags| <= |r.data.triggers| <= |es|
            && |r.data.tags| + Seqs.CountPrefixed(r.data.errors, EventErrorPrefix) == |es|
  {
    var t1 := VariablesPhase(env, t0, ps);
    var t2 := EventsPhase(env, t1, es);
    VariablesPhaseFrame(env, t0, ps);
    VariablesPhaseCount(env, t0, ps);
    EventsPhaseCount(env, t1, es);
    CountThroughLoops(t0.data.errors, t1.data.errors, t2.data.errors);
  }

  /** On distinct event names and no triggers yet, `createdTriggers` ends in step with
      `triggers`, keyed by the names of `es`. */
  lemma LoopsTriggersTracked(env: Env, t0: Trace, ps: seq<string>, es: seq<EventRecord>)
    requires t0.data.triggers == [] && t0.data.createdTriggers == [] && Seqs.NoDup(EventNames(es))
    ensures var r := EventsPhase(env, VariablesPhase(env, t0, ps), es);
            && TriggersTracked(r.data)
            && (forall k :: k in Seqs.Keys(r.data.createdTriggers) ==> k in EventNames(es))
  {
    var t1 := VariablesPhase(env, t0, ps);
    VariablesPhaseFrame(env, t0, ps);
    assert TriggersTracked(t1.data);
    EventsPhaseTracked(env, t1, es);
  }

  /** With no tag call before them, every tag call the loops make follows its trigger and
      carries one of `es`. */
  lemma LoopsTags(env: Env, t0: Trace, ps: seq<string>, es: seq<EventRecord>)
    requires forall i :: 0 <= i < |t0.calls| ==> !t0.calls[i].CreateEventTag?
    ensures TagsFollowTriggers(EventsPhase(env, VariablesPhase(env, t0, ps), es).calls, env, es)
  {
    var t1 := VariablesPhase(env, t0, ps);
    assert TagsFollowTriggers(t0.calls, env, es);
    VariablesPhaseTags(env, t0, ps, es);
    EventsPhaseTags(env, t1, es, es);
  }

  // ---------------------------------------------------------------------------
  // The whole run, continued
  // ---------------------------------------------------------------------------

  /** A parameter gets a variable call exactly when some record lists it. */
  lemma AllParametersOf(csv: seq<EventRecord>, p: string)
    ensures p in AllParameters(csv) <==> exists i :: 0 <= i < |csv| && p in csv[i].parameters
  {
    var lists := ParameterLists(csv);
    var flat := Seqs.Flatten(lists);
    if p in AllParameters(csv) {
      var k :| 0 <= k < |flat| && flat[k] == p;
      var i :| 0 <= i < |lists| && flat[k] in lists[i];
      assert p in csv[i].parameters;
    }
    if i :| 0 <= i < |csv| && p in csv[i].parameters {
      var j :| 0 <= j < |lists[i]| && lists[i][j] == p;
      assert p in flat;
    }
  }

  /** The trace after the configuration tag: two calls, nothing created by the loops yet. */
  lemma StartTrace(ctx: Context, env: Env, ws: Created)
    ensures var t0 := ConfigTagStep(env, Trace(Initial.(workspace := Some(ws)), [WorkspaceCall(ctx)]));
            && t0.calls == [WorkspaceCall(ctx), ConfigTagCall(env)]
            && VariableParams(t0.calls) == [] && TriggerEvents(t0.calls) == []
            && (forall i :: 0 <= i < |t0.calls| ==> !t0.calls[i].CreateEventTag?)
            && t0.data.variables == [] && t0.data.createdVariables == []
            && t0.data.triggers == [] && t0.data.tags == [] && t0.data.createdTriggers == []
            && Seqs.CountPrefixed(t0.data.errors, VariableErrorPrefix) == 0
            && Seqs.CountPrefixed(t0.data.errors, EventErrorPrefix) == 0
  {
    var t := Trace(Initial.(workspace := Some(ws)), [WorkspaceCall(ctx)]);
    StartTraceCalls(env, t, WorkspaceCall(ctx));
    ConfigTagErrorCounts(env, t);
  }

  lemma StartTraceCalls(env: Env, t: Trace, wc: Call)
    requires t.calls == [wc] && wc.CreateWorkspace?
    ensures var t0 := ConfigTagStep(env, t);
            && t0.calls == [wc, ConfigTagCall(env)]
            && VariableParams(t0.calls) == [] && TriggerEvents(t0.calls) == []
            && (forall i :: 0 <= i < |t0.calls| ==> !t0.calls[i].CreateEventTag?)
            && t0.data.variables == t.data.variables && t0.data.createdVariables == t.data.createdVariables
            && t0.data.triggers == t.data.triggers && t0.data.tags == t.data.tags
            && t0.data.createdTriggers == t.data.createdTriggers
  {
    StartCalls(wc, ConfigTagCall(env));
  }

  /** The workspace and configuration-tag calls are neither variable nor trigger calls. */
  lemma StartCalls(wc: Call, cc: Call)
    requires wc.CreateWorkspace? && cc.CreateGA4ConfigTag?
    ensures VariableParams([wc, cc]) == [] && TriggerEvents([wc, cc]) == []
  {
    assert [wc, cc] == [wc] + [cc] && [wc] == [] + [wc];
    Seqs.FilterMapSnoc([], wc, VariableParam);
    Seqs.FilterMapSnoc([wc], cc, VariableParam);
    Seqs.FilterMapSnoc([], wc, TriggerEvent);
    Seqs.FilterMapSnoc([wc], cc, TriggerEvent);
  }

  /** A run that did not fail called `createVariable` once for each distinct parameter, in
      first-seen order; each ends as a variable or as one variable error; `createdVariables`
      holds each created variable under the parameter it was made for. */
  lemma ConfigureVariables(csv: seq<EventRecord>, ctx: Context, api: Call -> Reply)
    ensures var r := Configure(csv, ctx, api);
            r.thrown.None? ==>
              && VariableParams(r.calls) == AllParameters(csv)
              && |r.data.variables| + Seqs.CountPrefixed(r.data.errors, VariableErrorPrefix) == |AllParameters(csv)|
              && VariablesTracked(r.data)
              && (forall k :: k in Seqs.Keys(r.data.createdVariables) ==> k in AllParameters(csv))
  {
    var wc := WorkspaceCall(ctx);
    var ws := Outcome(wc, api(wc));
    if ws.Success? {
      var env := EnvOf(ctx, ws.value.id, api);
      var t0 := ConfigTagStep(env, Trace(Initial.(workspace := Some(ws.value)), [wc]));
      var ps, es := AllParameters(csv), UniqueEvents(csv);
      StartTrace(ctx, env, ws.value);
      LoopsVariableParams(env, t0, ps, es);
      LoopsVariableCount(env, t0, ps, es);
      LoopsVariablesTracked(env, t0, ps, es);
    }
  }

  /** A run that did not fail called `createTrigger` once for each distinct event name, in
      first-seen order; there are never more tags than triggers; each event ends as a tag or
      as one event error; `createdTriggers` holds each trigger under its event's name. */
  lemma ConfigureEvents(csv: seq<EventRecord>, ctx: Context, api: Call -> Reply)
    ensures var r := Configure(csv, ctx, api);
            var names := Seqs.Distinct(EventNames(csv));
            r.thrown.None? ==>
              && TriggerEvents(r.calls) == names
              && |r.data.tags| <= |r.data.triggers| <= |names|
              && |r.data.tags| + Seqs.CountPrefixed(r.data.errors, EventErrorPrefix) == |names|
              && TriggersTracked(r.data)
              && (forall k :: k in Seqs.Keys(r.data.createdTriggers) ==> k in names)
  {
    var wc := WorkspaceCall(ctx);
    var ws := Outcome(wc, api(wc));
    if ws.Success? {
      var env := EnvOf(ctx, ws.value.id, api);
      var t0 := ConfigTagStep(env, Trace(Initial.(workspace := Some(ws.value)), [wc]));
      var ps, es := AllParameters(csv), UniqueEvents(csv);
      StartTrace(ctx, env, ws.value);
      UniqueEventsLastWins(csv);
      assert |es| == |EventNames(es)|;
      LoopsTriggerEvents(env, t0, ps, es);
      LoopsEventCount(env, t0, ps, es);
      LoopsTriggersTracked(env, t0, ps, es);
    }
  }

  /** Every `createEventTag` call of a run comes straight after the successful
      `createTrigger` call for the same event and is fired by the trigger it created; its
      name and parameters are those of the LAST record with that event name. */
  lemma ConfigureTags(csv: seq<EventRecord>, ctx: Context, api: Call -> Reply)
    ensures var r := Configure(csv, ctx, api);
            var ws := Outcome(WorkspaceCall(ctx), api(WorkspaceCall(ctx)));
            var pairs := EventPairs(csv);
            ws.Success? ==>
              forall i :: 0 <= i < |r.calls| && r.calls[i].CreateEventTag? ==>
                var env := EnvOf(ctx, ws.value.id, api);
                && 0 < i
                && r.calls[i - 1] == TriggerCall(env, r.calls[i].eventName)
                && api(r.calls[i - 1]) == Ok(r.calls[i].triggerId)
                && r.calls[i].eventName in Seqs.Keys(pairs)
                && r.calls[i] == TagCall(env, Seqs.LastValue(pairs, r.calls[i].eventName), r.calls[i].triggerId)
  {
    var wc := WorkspaceCall(ctx);
    var ws := Outcome(wc, api(wc));
    if ws.Success? {
      var env := EnvOf(ctx, ws.value.id, api);
      var t0 := ConfigTagStep(env, Trace(Initial.(workspace := Some(ws.value)), [wc]));
      var ps, es := AllParameters(csv), UniqueEvents(csv);
      var calls := Configure(csv, ctx, api).calls;
      StartTrace(ctx, env, ws.value);
      LoopsTags(env, t0, ps, es);
      UniqueEventsLastWins(csv);
      forall i | 0 <= i < |calls| && calls[i].CreateEventTag?
        ensures Seqs.LastValue(EventPairs(csv), calls[i].eventName) == EventRecord(calls[i].eventName, calls[i].parameters)
        ensures calls[i].eventName in Seqs.Keys(EventPairs(csv))
      {
        var rec := EventRecord(calls[i].eventName, calls[i].parameters);
        var j :| 0 <= j < |es| && es[j] == rec;
      }
    }
  }

  /** Every tag a run that did not fail created is named after one of the CSV's event
      names. */
  lemma ConfigureTagNames(csv: seq<EventRecord>, ctx: Context, api: Call -> Reply)
    ensures var r := Configure(csv, ctx, api);
            r.thrown.None? ==> TagsNamed(r.data, Seqs.Distinct(EventNames(csv)))
  {
    var wc := WorkspaceCall(ctx);
    var ws := Outcome(wc, api(wc));
    if ws.Success? {
      var env := EnvOf(ctx, ws.value.id, api);
      var t0 := ConfigTagStep(env, Trace(Initial.(workspace := Some(ws.value)), [wc]));
      var ps, es := AllParameters(csv), UniqueEvents(csv);
      var names := Seqs.Distinct(EventNames(csv));
      StartTrace(ctx, env, ws.value);
      VariablesPhaseFrame(env, t0, ps);
      UniqueEventsLastWins(csv);
      forall i | 0 <= i < |es|
        ensures es[i].eventName in names
      {
        assert EventNames(es)[i] == es[i].eventName;
      }
      EventsPhaseTagNames(env, VariablesPhase(env, t0, ps), es, names);
    }
  }

  /** Configuration tag errors before `i`, variable errors from `i` to `j`, event errors
      from `j` on. */
  predicate ErrorsInOrder(errors: seq<string>, i: nat, j: nat) {
    && i <= j <= |errors|
    && (forall k :: 0 <= k < i ==> ConfigTagErrorPrefix <= errors[k])
    && (forall k :: i <= k < j ==> VariableErrorPrefix <= errors[k])
    && (forall k :: j <= k < |errors| ==> EventErrorPrefix <= errors[k])
  }

  /** The errors of a run that did not fail come in the order of the steps: at most one
      configuration tag error, present exactly when the tag was not created, then those of
      the variable loop, then those of the event loop. */
  lemma ConfigureErrorOrder(csv: seq<EventRecord>, ctx: Context, api: Call -> Reply)
    ensures var r := Configure(csv, ctx, api);
            var errors := r.data.errors;
            r.thrown.None? ==>
              exists i, j :: 0 <= i <= 1 && ErrorsInOrder(errors, i, j) && (i == 1 <==> r.data.configTag.None?)
  {
    var wc := WorkspaceCall(ctx);
    var ws := Outcome(wc, api(wc));
    if ws.Success? {
      var env := EnvOf(ctx, ws.value.id, api);
      var t := Trace(Initial.(workspace := Some(ws.value)), [wc]);
      var t0 := ConfigTagStep(env, t);
      var ps, es := AllParameters(csv), UniqueEvents(csv);
      ConfigTagErrors(env, t);
      LoopsErrorOrder(env, t0, ps, es);
      LoopsConfigTag(env, t0, ps, es);
      var i, j := |t0.data.errors|, |VariablesPhase(env, t0, ps).data.errors|;
      assert ErrorsInOrder(EventsPhase(env, VariablesPhase(env, t0, ps), es).data.errors, i, j);
    }
  }

  /** The loops keep the configuration tag. */
  lemma LoopsConfigTag(env: Env, t0: Trace, ps: seq<string>, es: seq<EventRecord>)
    ensures EventsPhase(env, VariablesPhase(env, t0, ps), es).data.configTag == t0.data.configTag
  {
    VariablesPhaseFrame(env, t0, ps);
    EventsPhaseFrame(env, VariablesPhase(env, t0, ps), es);
  }

  /** After errors that all carry the configuration tag prefix, the loops add variable
      errors and then event errors. */
  lemma LoopsErrorOrder(env: Env, t0: Trace, ps: seq<string>, es: seq<EventRecord>)
    requires forall k :: 0 <= k < |t0.data.errors| ==> ConfigTagErrorPrefix <= t0.data.errors[k]
    ensures var t1 := VariablesPhase(env, t0, ps);
            ErrorsInOrder(EventsPhase(env, t1, es).data.errors, |t0.data.errors|, |t1.data.errors|)
  {
    var t1 := VariablesPhase(env, t0, ps);
    VariablesPhaseCount(env, t0, ps);
    EventsPhaseCount(env, t1, es);
    ErrorOrderOf(t0.data.errors, t1.data.errors, EventsPhase(env, t1, es).data.errors);
  }

  /** The three groups of errors, from the prefixes each step leaves. */
  lemma ErrorOrderOf(e0: seq<string>, e1: seq<string>, e2: seq<string>)
    requires forall k :: 0 <= k < |e0| ==> ConfigTagErrorPrefix <= e0[k]
    requires NewErrorsPrefixed(e1, |e0|, VariableErrorPrefix) && e1[..|e0|] == e0
    requires NewErrorsPrefixed(e2, |e1|, EventErrorPrefix) && e2[..|e1|] == e1
    ensures ErrorsInOrder(e2, |e0|, |e1|)
  {
    forall k | 0 <= k < |e1| ensures e2[k] == e1[k] {
      assert e2[..|e1|][k] == e2[k];
    }
    forall k | 0 <= k < |e0| ensures e1[k] == e0[k] {
      assert e1[..|e0|][k] == e1[k];
    }
  }
}

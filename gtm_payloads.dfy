/** The JSON request bodies that `GTMManager.createWorkspace`, `createVariable`,
    `createTrigger`, `createGA4ConfigTag` and `createEventTag` post to the Tag Manager API,
    and the readers the download report applies to them. */
module GtmPayloads {
  import opened Wrappers
  import opened Text
  import Seqs

  /** A Tag Manager parameter: `{type:'TEMPLATE', key, value}`, `{type:'MAP', map}` or
      `{type:'LIST', key, list}`. */
  datatype Param =
    | Template(key: string, value: string)
    | MapParam(entries: seq<Param>)
    | ListParam(key: string, items: seq<Param>)

  /** One entry of a trigger's `customEventFilter`: `{type, parameter}`. */
  datatype Condition = Condition(kind: string, parameter: seq<Param>)

  datatype Body =
    | WorkspaceBody(name: string, description: string)
    | VariableBody(name: string, kind: string, parameter: seq<Param>)
    | TriggerBody(name: string, kind: string, customEventFilter: seq<Condition>)
    | TagBody(name: string, kind: string, parameter: seq<Param>, firingTriggerId: seq<string>)

  const VariablePrefix: string := "DLV - "
  const TriggerPrefix: string := "CE - "
  const EventTagPrefix: string := "GA4 - Event - "
  const ConfigTagName: string := "GA4 - Config"
  const WorkspacePrefix: string := "CSV Import - "
  const WorkspaceDescription: string := "Workspace created from CSV import for GA4 event configuration"
  /** The built-in All Pages trigger. */
  const AllPagesTriggerId: string := "2147479553"

  // ---------------------------------------------------------------------------
  // Builders
  // ---------------------------------------------------------------------------

  /** The workspace body; `date` stands for `new Date().toISOString().split('T')[0]`. */
  function WorkspacePayload(date: string): Body {
    WorkspaceBody(WorkspacePrefix + date, WorkspaceDescription)
  }

  /** The data layer variable for one parameter. */
  function VariablePayload(parameterName: string): Body {
    VariableBody(VariablePrefix + parameterName, "v", [Template("name", parameterName)])
  }

  /** The custom-event trigger: fires when `{{_event}}` equals the event name. */
  function TriggerPayload(eventName: string): Body {
    TriggerBody(TriggerPrefix + eventName, "customEvent",
                [Condition("equals", [Template("arg0", "{{_event}}"), Template("arg1", eventName)])])
  }

  /** The GA4 configuration tag, fired on All Pages. */
  function ConfigTagPayload(measurementId: string): Body {
    TagBody(ConfigTagName, "gaawc", [Template("measurementId", measurementId)], [AllPagesTriggerId])
  }

  /** `{{DLV - p}}`: a reference to the variable made for parameter `p`. */
  function VariableReference(parameterName: string): string {
    "{{" + VariablePrefix + parameterName + "}}"
  }

  /** One `eventParameters` row: the parameter name and a reference to its variable. */
  function ParamEntry(parameterName: string): Param {
    MapParam([Template("name", parameterName), Template("value", VariableReference(parameterName))])
  }

  /** `parameters.map(param => ({type:'MAP', ...}))`. */
  function ParamEntries(parameters: seq<string>): seq<Param> {
    seq(|parameters|, i requires 0 <= i < |parameters| => ParamEntry(parameters[i]))
  }

  /** The GA4 event tag: measurement id and event name first, then an `eventParameters` list
      only when there are parameters; fired by the event's trigger. */
  function EventTagPayload(eventName: string, parameters: seq<string>, triggerId: string,
                           measurementId: string): Body
  {
    var base := [Template("measurementId", measurementId), Template("eventName", eventName)];
    var tagParameters := if |parameters| > 0 then base + [ListParam("eventParameters", ParamEntries(parameters))] else base;
    TagBody(EventTagPrefix + eventName, "gaawe", tagParameters, [triggerId])
  }

  // ---------------------------------------------------------------------------
  // Readers
  // ---------------------------------------------------------------------------

  /** `p.key`; a MAP parameter has none. */
  function KeyOf(p: Param): Option<string> {
    match p
    case Template(key, _) => Some(key)
    case MapParam(_) => None
    case ListParam(key, _) => Some(key)
  }

  /** `params[k]` is the first parameter that carries `key`. */
  predicate FirstWithKey(params: seq<Param>, key: string, k: int) {
    && 0 <= k < |params| && KeyOf(params[k]) == Some(key)
    && forall j :: 0 <= j < k ==> KeyOf(params[j]) != Some(key)
  }

  /** `params.find(p => p.key === key)`: the first parameter with that key. */
  function FindByKey(params: seq<Param>, key: string): (r: Option<Param>)
    ensures r.Some? ==> r.value in params && KeyOf(r.value) == Some(key)
    ensures r.Some? ==> exists k :: FirstWithKey(params, key, k) && params[k] == r.value
    ensures r.None? ==> forall i :: 0 <= i < |params| ==> KeyOf(params[i]) != Some(key)
  {
    if params == [] then None
    else if KeyOf(params[0]) == Some(key) then Some(params[0])
    else FindByKey(params[1..], key)
  }

  /** `params.find(p => p.key === key)?.value`: only a TEMPLATE carries a value. */
  function FindValue(params: seq<Param>, key: string): Option<string> {
    match FindByKey(params, key)
    case Some(Template(_, value)) => Some(value)
    case _ => None
  }

  /** The name inside a `{{…}}` reference. */
  function Unwrap(s: string): (r: Option<string>)
    ensures r.Some? ==> s == "{{" + r.value + "}}"
  {
    if |s| >= 4 && s[..2] == "{{" && s[|s| - 2..] == "}}" then
      assert s == s[..2] + s[2..|s| - 2] + s[|s| - 2..];
      Some(s[2..|s| - 2])
    else None
  }

  /** The parameter names listed in a tag's `eventParameters` rows, in order. */
  function EventParameterNames(params: seq<Param>): seq<string> {
    match FindByKey(params, "eventParameters")
    case Some(ListParam(_, items)) => Seqs.FilterMap(items, EntryName)
    case _ => []
  }

  function EntryName(p: Param): Option<string> {
    if p.MapParam? then FindValue(p.entries, "name") else None
  }

  /** The variable names referenced by a tag's `eventParameters` rows, in order. */
  function ReferencedVariables(params: seq<Param>): seq<string> {
    match FindByKey(params, "eventParameters")
    case Some(ListParam(_, items)) => Seqs.FilterMap(items, EntryReference)
    case _ => []
  }

  function EntryReference(p: Param): Option<string> {
    if p.MapParam? then
      match FindValue(p.entries, "value")
      case Some(v) => Unwrap(v)
      case None => None
    else None
  }

  /** The report's `eventName` for a trigger or tag: `name.replace(prefix, '')`. */
  function ReportedEventName(name: string, prefix: string): string {
    ReplaceFirst(name, prefix, "")
  }

  /** The `VariablePrefix + p` names of the variables made for `parameters`, in order. */
  function VariableNames(parameters: seq<string>): seq<string> {
    seq(|parameters|, i requires 0 <= i < |parameters| => VariablePayload(parameters[i]).name)
  }

  // ---------------------------------------------------------------------------
  // Round trips
  // ---------------------------------------------------------------------------

  /** The workspace is named `CSV Import - ` and its date, which strips back off the name. */
  lemma WorkspacePayloadShape(date: string)
    ensures var w := WorkspacePayload(date);
            && w.WorkspaceBody?
            && WorkspacePrefix <= w.name
            && ReplaceFirst(w.name, WorkspacePrefix, "") == date
            && w.description == WorkspaceDescription
  {
    StripPrefix(WorkspacePrefix, date);
  }

  /** A data layer variable (`type: 'v'`) with one `name` TEMPLATE from which the report
      reads the parameter name back. */
  lemma VariableRoundTrip(p: string)
    ensures FindValue(VariablePayload(p).parameter, "name") == Some(p)
    ensures VariablePayload(p).name == VariablePrefix + p
    ensures VariablePayload(p).kind == "v" && |VariablePayload(p).parameter| == 1
  {
  }

  /** Stripping `CE - ` from a trigger's name gives the event name back, and the trigger's
      filter compares `{{_event}}` with exactly that name. */
  lemma TriggerRoundTrip(e: string)
    ensures ReportedEventName(TriggerPayload(e).name, TriggerPrefix) == e
    ensures var t := TriggerPayload(e);
            && t.kind == "customEvent" && |t.customEventFilter| == 1
            && t.customEventFilter[0].kind == "equals"
            && FindValue(t.customEventFilter[0].parameter, "arg0") == Some("{{_event}}")
            && FindValue(t.customEventFilter[0].parameter, "arg1") == Some(e)
  {
    StripPrefix(TriggerPrefix, e);
    var ps := TriggerPayload(e).customEventFilter[0].parameter;
    assert ps[1..] == [Template("arg1", e)];
    assert FindByKey(ps[1..], "arg1") == Some(Template("arg1", e));
  }

  /** The GA4 configuration tag (`gaawc`): its only parameter is the measurement id, it
      fires on the All Pages trigger, it lists no event parameters, and its name is never
      taken for an event tag's. */
  lemma ConfigTagPayloadShape(mid: string)
    ensures var tag := ConfigTagPayload(mid);
            && tag.TagBody? && tag.name == ConfigTagName && tag.kind == "gaawc"
            && |tag.parameter| == 1
            && FindValue(tag.parameter, "measurementId") == Some(mid)
            && EventParameterNames(tag.parameter) == []
            && tag.firingTriggerId == [AllPagesTriggerId]
            && !(EventTagPrefix <= tag.name)
  {
    var ps := ConfigTagPayload(mid).parameter;
    assert ps[1..] == [];
    assert ConfigTagName[6] != EventTagPrefix[6];
  }

  /** Stripping `GA4 - Event - ` from an event tag's name gives the event name back. */
  lemma EventTagRoundTrip(e: string, ps: seq<string>, triggerId: string, mid: string)
    ensures ReportedEventName(EventTagPayload(e, ps, triggerId, mid).name, EventTagPrefix) == e
  {
    StripPrefix(EventTagPrefix, e);
  }

  /** The shape of an event tag: measurement id, event name, then the parameter list exactly
      when there are parameters, fired by the given trigger only. */
  lemma EventTagShape(e: string, ps: seq<string>, triggerId: string, mid: string)
    ensures var tag := EventTagPayload(e, ps, triggerId, mid);
            && tag.parameter[..2] == [Template("measurementId", mid), Template("eventName", e)]
            && (|tag.parameter| == 2 <==> ps == [])
            && (ps != [] ==> tag.parameter[2] == ListParam("eventParameters", ParamEntries(ps)))
            && tag.kind == "gaawe" && tag.firingTriggerId == [triggerId]
            && FindValue(tag.parameter, "measurementId") == Some(mid)
            && FindValue(tag.parameter, "eventName") == Some(e)
  {
    var ps' := EventTagPayload(e, ps, triggerId, mid).parameter;
    var second := Template("eventName", e);
    assert ps'[0] == Template("measurementId", mid) && ps'[1..][0] == second;
    assert FindByKey(ps'[1..], "eventName") == Some(second);
  }

  /** A reference unwraps to the name it wraps. */
  lemma UnwrapReference(p: string)
    ensures Unwrap(VariableReference(p)) == Some(VariablePrefix + p)
  {
    var s := VariableReference(p);
    assert s[..2] == "{{";
    assert s[|s| - 2..] == "}}";
    assert s[2..|s| - 2] == VariablePrefix + p;
  }

  lemma {:induction false} EntryNamesOf(ps: seq<string>)
    ensures Seqs.FilterMap(ParamEntries(ps), EntryName) == ps
  {
    if ps != [] {
      var init := ps[..|ps| - 1];
      EntryNamesOf(init);
      Seqs.FilterMapSnoc(ParamEntries(init), ParamEntry(ps[|ps| - 1]), EntryName);
      assert ParamEntries(ps) == ParamEntries(init) + [ParamEntry(ps[|ps| - 1])];
      assert init + [ps[|ps| - 1]] == ps;
    }
  }

  lemma EntryValue(p: string)
    ensures FindValue(ParamEntry(p).entries, "value") == Some(VariableReference(p))
  {
    var entries := ParamEntry(p).entries;
    var v := Template("value", VariableReference(p));
    assert entries[1..] == [v];
    assert KeyOf(entries[0]) != Some("value");
    assert FindByKey(entries[1..], "value") == Some(v);
    assert FindByKey(entries, "value") == Some(v);
  }

  lemma {:induction false} EntryReferencesOf(ps: seq<string>)
    ensures Seqs.FilterMap(ParamEntries(ps), EntryReference) == VariableNames(ps)
  {
    if ps != [] {
      var init := ps[..|ps| - 1];
      var last := ps[|ps| - 1];
      EntryReferencesOf(init);
      UnwrapReference(last);
      EntryValue(last);
      assert EntryReference(ParamEntry(last)) == Some(VariablePayload(last).name);
      Seqs.FilterMapSnoc(ParamEntries(init), ParamEntry(last), EntryReference);
      assert ParamEntries(ps) == ParamEntries(init) + [ParamEntry(last)];
      assert VariableNames(ps) == VariableNames(init) + [VariablePayload(last).name];
    }
  }

  /** The tag lists its parameters back, in order, repeats kept, and each row references
      the variable made for that very parameter. */
  lemma EventTagParameters(e: string, ps: seq<string>, triggerId: string, mid: string)
    ensures EventParameterNames(EventTagPayload(e, ps, triggerId, mid).parameter) == ps
    ensures ReferencedVariables(EventTagPayload(e, ps, triggerId, mid).parameter) == VariableNames(ps)
  {
    FindEventParameters(e, ps, triggerId, mid);
    EntryNamesOf(ps);
    EntryReferencesOf(ps);
  }

  lemma FindEventParameters(e: string, ps: seq<string>, triggerId: string, mid: string)
    ensures FindByKey(EventTagPayload(e, ps, triggerId, mid).parameter, "eventParameters")
            == if ps == [] then None else Some(ListParam("eventParameters", ParamEntries(ps)))
  {
    var base := [Template("measurementId", mid), Template("eventName", e)];
    assert FindByKey(base, "eventParameters") == None;
    if ps != [] {
      var all := base + [ListParam("eventParameters", ParamEntries(ps))];
      var list := ListParam("eventParameters", ParamEntries(ps));
      assert all[1..][1..] == [list];
      assert FindByKey(all[1..][1..], "eventParameters") == Some(list);
      assert FindByKey(all[1..], "eventParameters") == Some(list);
    }
  }
}

/** The page state of frontend/csvScript.js: the globals `csvData`, `processedData` and
    `gtmConfig`, the Create button of the configuration form, and the handlers that change
    them; plus the report that `downloadProcessed` builds from them. */
module CsvUpload {
  import opened Wrappers
  import opened Text
  import Seqs
  import opened Csv
  import opened GtmPayloads
  import opened GtmApi
  import opened Orchestrator

  /** `gtmConfig`. */
  datatype GtmConfig = GtmConfig(accountId: string, containerId: string, measurementId: string,
                                 accounts: seq<Account>, containers: seq<Container>, accessToken: string)

  const EmptyConfig: GtmConfig := GtmConfig("", "", "", [], [], "")

  const CsvMimeType: string := "text/csv"
  const CsvExtension: string := ".csv"

  /** The file guard of `handleFile`: a CSV media type or a `.csv` name. */
  predicate AcceptsFile(fileType: string, fileName: string) {
    fileType == CsvMimeType || EndsWith(fileName, CsvExtension)
  }

  /** The guard of `processGTMConfiguration`: account, container and measurement id chosen,
      and signed in. */
  predicate ReadyToCreate(config: GtmConfig, authenticated: bool) {
    config.accountId != "" && config.containerId != "" && config.measurementId != "" && authenticated
  }

  // ---------------------------------------------------------------------------
  // The download report
  // ---------------------------------------------------------------------------

  datatype WorkspaceEntry = WorkspaceEntry(id: string, name: string, url: string)
  datatype Configuration = Configuration(accountId: string, containerId: string, measurementId: string)
  datatype Summary = Summary(totalEvents: nat, uniqueEvents: nat, variablesCreated: nat, triggersCreated: nat,
                             tagsCreated: nat, ga4ConfigTag: string, errors: nat)
  /** A variable row; `parameter` is absent when the body has no `name` TEMPLATE. */
  datatype VariableEntry = VariableEntry(id: string, name: string, parameter: Option<string>)
  /** A trigger or tag row with the event name read back from its name. */
  datatype NamedEntry = NamedEntry(id: string, name: string, eventName: string)
  datatype Report = Report(workspace: WorkspaceEntry, configuration: Configuration, summary: Summary,
                           variables: seq<VariableEntry>, triggers: seq<NamedEntry>, tags: seq<NamedEntry>,
                           errors: seq<string>, originalData: seq<EventRecord>)

  const GtmUrlPrefix: string := "https://tagmanager.google.com/#/container/accounts/"

  /** The link to a workspace in the Tag Manager UI. */
  function WorkspaceUrl(accountId: string, containerId: string, workspaceId: string): string {
    GtmUrlPrefix + accountId + "/containers/" + containerId + "/workspaces/" + workspaceId
  }

  /** `v.parameter?.find(p => p.key === 'name')?.value`. */
  function ParameterNameOf(b: Body): Option<string> {
    if b.VariableBody? || b.TagBody? then FindValue(b.parameter, "name") else None
  }

  function VariableEntryOf(v: Created): VariableEntry {
    VariableEntry(v.id, v.body.name, ParameterNameOf(v.body))
  }

  function NamedEntryOf(c: Created, prefix: string): NamedEntry {
    NamedEntry(c.id, c.body.name, ReportedEventName(c.body.name, prefix))
  }

  /** The report object of `downloadProcessed`, or nothing when no workspace was created.
      The `timestamp` field is not modelled. */
  function BuildReport(pd: Option<ProcessedData>, config: GtmConfig, csv: seq<EventRecord>): (r: Option<Report>)
    ensures r.Some? <==> pd.Some? && pd.value.workspace.Some?
    ensures r.Some? ==> |r.value.variables| == |pd.value.variables| && |r.value.triggers| == |pd.value.triggers|
                        && |r.value.tags| == |pd.value.tags| && r.value.errors == pd.value.errors
  {
    if pd.None? || pd.value.workspace.None? then None
    else
      var d := pd.value;
      var ws := d.workspace.value;
      Some(Report(
        WorkspaceEntry(ws.id, ws.body.name, WorkspaceUrl(config.accountId, config.containerId, ws.id)),
        Configuration(config.accountId, config.containerId, config.measurementId),
        Summary(|csv|, |d.triggers|, |d.variables|, |d.triggers|, |d.tags|,
                if d.configTag.Some? then "Created" else "Failed", |d.errors|),
        seq(|d.variables|, i requires 0 <= i < |d.variables| => VariableEntryOf(d.variables[i])),
        seq(|d.triggers|, i requires 0 <= i < |d.triggers| => NamedEntryOf(d.triggers[i], TriggerPrefix)),
        seq(|d.tags|, i requires 0 <= i < |d.tags| => NamedEntryOf(d.tags[i], EventTagPrefix)),
        d.errors,
        csv))
  }

  /** The entry reports a parameter, and it is one of `ps`. */
  predicate ParameterIn(v: VariableEntry, ps: seq<string>) {
    v.parameter.Some? && v.parameter.value in ps
  }

  /** With `createdVariables` and `createdTriggers` in step, the report reads back the very
      parameter each variable was created for and the very event each trigger was created
      for; so no event name is reported twice. */
  lemma ReportReadsBack(d: ProcessedData, config: GtmConfig, csv: seq<EventRecord>)
    requires d.workspace.Some? && VariablesTracked(d) && TriggersTracked(d)
    ensures var r := BuildReport(Some(d), config, csv).value;
            && (forall i :: 0 <= i < |r.variables| ==>
                  && r.variables[i].parameter == Some(d.createdVariables[i].0)
                  && r.variables[i].name == VariablePrefix + d.createdVariables[i].0)
            && (forall i :: 0 <= i < |r.triggers| ==> r.triggers[i].eventName == d.createdTriggers[i].0)
            && (forall i, j :: 0 <= i < j < |r.triggers| ==> r.triggers[i].eventName != r.triggers[j].eventName)
  {
    var r := BuildReport(Some(d), config, csv).value;
    forall i | 0 <= i < |r.variables|
      ensures r.variables[i].parameter == Some(d.createdVariables[i].0)
    {
      VariableRoundTrip(d.createdVariables[i].0);
    }
    forall i | 0 <= i < |r.triggers|
      ensures r.triggers[i].eventName == d.createdTriggers[i].0
    {
      TriggerRoundTrip(d.createdTriggers[i].0);
    }
    forall i, j | 0 <= i < j < |r.triggers|
      ensures r.triggers[i].eventName != r.triggers[j].eventName
    {
      assert Seqs.Keys(d.createdTriggers)[i] == d.createdTriggers[i].0;
      assert Seqs.Keys(d.createdTriggers)[j] == d.createdTriggers[j].0;
    }
  }

  /** The counts and the names a report gives for data whose maps are in step, whose
      variable keys are among `ps` and whose trigger keys are among `names`. */
  lemma ReportOfData(d: ProcessedData, config: GtmConfig, csv: seq<EventRecord>, ps: seq<string>, names: seq<string>)
    requires d.workspace.Some? && VariablesTracked(d) && TriggersTracked(d)
    requires forall k :: k in Seqs.Keys(d.createdVariables) ==> k in ps
    requires forall k :: k in Seqs.Keys(d.createdTriggers) ==> k in names
    requires |d.variables| + Seqs.CountPrefixed(d.errors, VariableErrorPrefix) == |ps|
    requires |d.tags| <= |d.triggers| <= |names|
    ensures var report := BuildReport(Some(d), config, csv).value;
            && report.summary.totalEvents == |csv|
            && report.summary.variablesCreated + Seqs.CountPrefixed(d.errors, VariableErrorPrefix) == |ps|
            && report.summary.tagsCreated <= report.summary.triggersCreated <= |names|
            && (forall i :: 0 <= i < |report.variables| ==> ParameterIn(report.variables[i], ps))
            && (forall i :: 0 <= i < |report.triggers| ==> report.triggers[i].eventName in names)
  {
    ReportReadsBack(d, config, csv);
    var report := BuildReport(Some(d), config, csv).value;
    forall i | 0 <= i < |report.variables|
      ensures ParameterIn(report.variables[i], ps)
    {
      var p := d.createdVariables[i].0;
      assert Seqs.Keys(d.createdVariables)[i] == p;
      assert p in Seqs.Keys(d.createdVariables);
    }
    forall i | 0 <= i < |report.triggers|
      ensures report.triggers[i].eventName in names
    {
      var e := d.createdTriggers[i].0;
      assert Seqs.Keys(d.createdTriggers)[i] == e;
      assert e in Seqs.Keys(d.createdTriggers);
    }
  }

  /** Each tag row's event name is one of `names` when every tag was named after one. */
  lemma ReportTagNames(d: ProcessedData, config: GtmConfig, csv: seq<EventRecord>, names: seq<string>)
    requires d.workspace.Some? && TagsNamed(d, names)
    ensures var report := BuildReport(Some(d), config, csv).value;
            forall i :: 0 <= i < |report.tags| ==> report.tags[i].eventName in names
  {
  }

  /** The report of a run that did not fail: the workspace that was created and its link;
      a variable count that with the variable errors makes up the distinct parameters; no
      more tags than triggers nor triggers than distinct events; each reported parameter
      one of the records' and each trigger's and tag's reported event one of the records'
      names. */
  lemma ReportOfRun(csv: seq<EventRecord>, ctx: Context, api: Call -> Reply, config: GtmConfig)
    requires config.accountId == ctx.accountId && config.containerId == ctx.containerId
    ensures var run := Configure(csv, ctx, api);
            var ws := Outcome(WorkspaceCall(ctx), api(WorkspaceCall(ctx)));
            var report := BuildReport(Some(run.data), config, csv);
            var names := Seqs.Distinct(EventNames(csv));
            run.thrown.None? ==>
              && ws.Success? && report.Some?
              && report.value.workspace == WorkspaceEntry(ws.value.id, WorkspacePrefix + ctx.date,
                                                          WorkspaceUrl(ctx.accountId, ctx.containerId, ws.value.id))
              && report.value.summary.totalEvents == |csv|
              && report.value.summary.variablesCreated + Seqs.CountPrefixed(run.data.errors, VariableErrorPrefix)
                 == |AllParameters(csv)|
              && report.value.summary.tagsCreated <= report.value.summary.triggersCreated <= |names|
              && (forall i :: 0 <= i < |report.value.variables| ==>
                    ParameterIn(report.value.variables[i], AllParameters(csv)))
              && (forall i :: 0 <= i < |report.value.triggers| ==> report.value.triggers[i].eventName in names)
              && (forall i :: 0 <= i < |report.value.tags| ==> report.value.tags[i].eventName in names)
  {
    var run := Configure(csv, ctx, api);
    if run.thrown.None? {
      ConfigureFatal(csv, ctx, api);
      ConfigureStart(csv, ctx, api);
      ConfigureVariables(csv, ctx, api);
      ConfigureEvents(csv, ctx, api);
      ConfigureTagNames(csv, ctx, api);
      ReportTagNames(run.data, config, csv, Seqs.Distinct(EventNames(csv)));
      ReportOfData(run.data, config, csv, AllParameters(csv), Seqs.Distinct(EventNames(csv)));
    }
  }

  // ---------------------------------------------------------------------------
  // The page
  // ---------------------------------------------------------------------------

  /** The globals of the page. `processedData` is `None` while it holds the empty array it
      starts with; `createButton` is `None` while no configuration form is shown and
      otherwise says whether its Create button is enabled. */
  class Page {
    var csvData: seq<EventRecord>
    var processedData: Option<ProcessedData>
    var config: GtmConfig
    var createButton: Option<bool>
    const manager: GtmManager

    /** The state `resetUpload` leaves, which is also the state the page loads in. */
    predicate IsReset()
      reads this
    {
      csvData == [] && processedData == None && config == EmptyConfig && createButton == None
    }

    constructor(manager: GtmManager)
      ensures IsReset() && this.manager == manager
    {
      csvData := [];
      processedData := None;
      config := EmptyConfig;
      createButton := None;
      this.manager := manager;
    }

    /** `resetUpload`: back to the upload area, the form removed, the globals emptied. */
    method ResetUpload()
      modifies this
      ensures IsReset()
    {
      csvData := [];
      processedData := None;
      config := EmptyConfig;
      createButton := None;
    }

    /** `handleFile` with the file's text: anything but a CSV file is refused and changes
        nothing; a CSV that parses becomes `csvData` and shows the form (a form already
        shown keeps its button); one that does not resets the page. */
    method HandleFile(fileType: string, fileName: string, content: string) returns (accepted: bool)
      modifies this
      ensures accepted <==> AcceptsFile(fileType, fileName)
      ensures !accepted ==> csvData == old(csvData) && processedData == old(processedData)
                            && config == old(config) && createButton == old(createButton)
      ensures accepted && ParseSpec(content).Success? ==>
                && csvData == ParseSpec(content).value
                && processedData == old(processedData) && config == old(config)
                && createButton == (if old(createButton).None? then Some(false) else old(createButton))
      ensures accepted && ParseSpec(content).Failure? ==> IsReset()
    {
      if fileType != CsvMimeType && !EndsWith(fileName, CsvExtension) {
        return false;
      }
      accepted := true;
      var parsed := ParseCsv(content);
      ApplyParsed(parsed);
    }

    /** The `reader.onload` callback: the parsed records, or the reset. */
    method ApplyParsed(parsed: Result<seq<EventRecord>>)
      modifies this
      ensures parsed.Success? ==>
                && csvData == parsed.value
                && processedData == old(processedData) && config == old(config)
                && createButton == (if old(createButton).None? then Some(false) else old(createButton))
      ensures parsed.Failure? ==> IsReset()
    {
      match parsed
      case Success(records) =>
        csvData := records;
        if createButton.None? {
          createButton := Some(false);
        }
      case Failure(_) =>
        ResetUpload();
    }

    /** `toggleCreateButton` with the text of the measurement id field: it only ever
        enables the button, and only when a form is shown and account, container and a
        non-blank measurement id are all there. */
    method ToggleCreateButton(measurementInput: string)
      modifies this
      ensures createButton == if old(createButton).Some? && config.accountId != "" && config.containerId != ""
                                 && Trim(measurementInput) != ""
                              then Some(true) else old(createButton)
      ensures old(createButton) == Some(true) ==> createButton == Some(true)
      ensures csvData == old(csvData) && processedData == old(processedData) && config == old(config)
    {
      var measurementId := Trim(measurementInput);
      if createButton.Some? && config.accountId != "" && config.containerId != "" && measurementId != "" {
        createButton := Some(true);
      }
    }

    /** `loadGTMAccounts`: the listed accounts on success; a failure changes nothing. */
    method LoadGtmAccounts(reply: ListReply<Account>)
      modifies this
      ensures config == match manager.LoadAccounts(reply)
                        case Success(accounts) => old(config).(accounts := accounts)
                        case Failure(_) => old(config)
      ensures csvData == old(csvData) && processedData == old(processedData) && createButton == old(createButton)
    {
      var accounts := manager.LoadAccounts(reply);
      if accounts.Success? {
        config := config.(accounts := accounts.value);
      }
    }

    /** `handleAccountChange`: an empty choice changes nothing; otherwise the account is
        kept even when its containers then fail to load. */
    method HandleAccountChange(accountId: string, reply: ListReply<Container>)
      modifies this
      ensures accountId == "" ==> config == old(config)
      ensures accountId != "" ==>
                config == match manager.LoadContainers(accountId, reply)
                          case Success(containers) => old(config).(accountId := accountId, containers := containers)
                          case Failure(_) => old(config).(accountId := accountId)
      ensures csvData == old(csvData) && processedData == old(processedData) && createButton == old(createButton)
    {
      if accountId == "" {
        return;
      }
      config := config.(accountId := accountId);
      var containers := manager.LoadContainers(accountId, reply);
      if containers.Success? {
        config := config.(containers := containers.value);
      }
    }

    /** The container `change` listener: the container is kept, then the button toggled. */
    method HandleContainerChange(containerId: string, measurementInput: string)
      modifies this
      ensures config == old(config).(containerId := containerId)
      ensures createButton == if old(createButton).Some? && config.accountId != "" && containerId != ""
                                 && Trim(measurementInput) != ""
                              then Some(true) else old(createButton)
      ensures csvData == old(csvData) && processedData == old(processedData)
    {
      config := config.(containerId := containerId);
      ToggleCreateButton(measurementInput);
    }

    /** `processGTMConfiguration`: the trimmed measurement id is stored first; without
        account, container, measurement id and sign-in nothing else happens; otherwise the
        run's data becomes `processedData`, and a run that rethrows resets the page. */
    method ProcessGtmConfiguration(measurementInput: string, date: string, api: Call -> Reply) returns (ran: bool)
      modifies this
      ensures var cfg := old(config).(measurementId := Trim(measurementInput));
              && (ran <==> ReadyToCreate(cfg, manager.isAuthenticated))
              && (!ran ==> config == cfg && csvData == old(csvData) && processedData == old(processedData)
                           && createButton == old(createButton))
      ensures ran ==>
                var run := Configure(old(csvData), Context(old(config).accountId, old(config).containerId,
                                                           Trim(measurementInput), date), api);
                if run.thrown.None? then
                  && processedData == Some(run.data)
                  && config == old(config).(measurementId := Trim(measurementInput))
                  && csvData == old(csvData) && createButton == old(createButton)
                else IsReset()
    {
      var measurementId := Trim(measurementInput);
      var accountId, containerId, records := config.accountId, config.containerId, csvData;
      config := config.(measurementId := measurementId);
      if accountId == "" || containerId == "" || measurementId == "" || !manager.isAuthenticated {
        return false;
      }
      ran := true;
      var data, calls, thrown := CreateGtmConfiguration(records, Context(accountId, containerId, measurementId, date), api);
      ApplyRun(data, thrown);
    }

    /** What the page keeps of a run: its data, or, when it rethrew, the reset. */
    method ApplyRun(data: ProcessedData, thrown: Option<string>)
      modifies this
      ensures thrown.None? ==> processedData == Some(data) && config == old(config)
                               && csvData == old(csvData) && createButton == old(createButton)
      ensures thrown.Some? ==> IsReset()
    {
      processedData := Some(data);
      if thrown.Some? {
        ResetUpload();
      }
    }

    /** `downloadProcessed`: the report, or nothing before a workspace exists. */
    method DownloadProcessed() returns (r: Option<Report>)
      ensures r == BuildReport(processedData, config, csvData)
    {
      r := BuildReport(processedData, config, csvData);
    }
  }
}

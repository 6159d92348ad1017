/** The two steps of the lead identification workflow. Each reads the state and
    returns the partial update it contributes, or the exception that escapes
    it; the model lookup, the model calls and the JSON decoder are collaborator
    outcomes handed in through `LeadServices`. */
module LeadNodes {
  import opened Wrappers
  import opened Values
  import opened Text
  import opened LeadUtils
  import opened LeadConfig

  /** The fields of the lead identification state. */
  datatype Key = CompanyName | LeadGenerationArea | Titles | RawSearchResults | ProcessedLeads | Leads | Report

  type State = map<Key, Value>

  datatype Node = IdentifyLeads | CreateSummaryReport

  /** What the lead search call is handed: the model, the prompt's fragments
      and the temperature. */
  datatype SearchRequest = SearchRequest(model: Value, companyName: Value, area: Value,
                                         titlesText: string, temperature: Value)

  /** What the report call is handed. */
  datatype ReportRequest = ReportRequest(model: Value, companyName: Value, area: Value,
                                         titlesText: string, leadsText: string, temperature: Value)

  /** The collaborators and the settings the steps read. */
  datatype LeadServices = LeadServices(
    env: Environment,
    config: RunConfig,
    getModel: Value -> Outcome<()>,
    search: SearchRequest -> Outcome<Response>,
    decode: string -> DecodeResult,
    report: ReportRequest -> Outcome<Response>)

  /** The fields each step writes. */
  function WriteSet(n: Node): set<Key> {
    match n
    case IdentifyLeads => {RawSearchResults, ProcessedLeads, Leads}
    case CreateSummaryReport => {Report}
  }

  const ExceptionPrefix: string := "Exception: "
  const ReportExceptionPrefix: string := "Exception during report generation: "
  const ReportFailed: string := "Failed to generate report text from Gemini response."

  // ---------------------------------------------------------------------------
  // identify_leads

  /** The update of the lead step: the raw text, and the same leads twice. */
  function LeadsUpdate(raw: string, leads: Value): State {
    map[RawSearchResults := Str(raw), ProcessedLeads := leads, Leads := leads]
  }

  /** The values Python's `len` accepts. */
  predicate HasLen(v: Value) {
    v.Str? || v.List? || v.Dict?
  }

  /** The guarded part of `identify_leads_node`: every exception in the call,
      the parsing or the leads count becomes an "Exception: " text and no
      leads. */
  function SearchLeads(sv: LeadServices, req: SearchRequest): (u: State)
    ensures u.Keys == WriteSet(IdentifyLeads) && u[Leads] == u[ProcessedLeads] && u[RawSearchResults].Str?
  {
    match sv.search(req)
    case Raise(m) => LeadsUpdate(ExceptionPrefix + m, List([]))
    case Ok(resp) =>
      match ParseSpec(resp, sv.decode)
      case Raise(m) => LeadsUpdate(ExceptionPrefix + m, List([]))
      case Ok((leads, raw)) =>
        if !Truthy(leads) && Contains(raw, ErrorFlag) then LeadsUpdate(raw, List([]))
        else if !HasLen(leads) then
          LeadsUpdate(ExceptionPrefix + "object of type '" + TypeName(leads) + "' has no len()", List([]))
        else LeadsUpdate(raw, leads)
  }

  /** `identify_leads_node`. The configuration, the input fields, the titles
      and the model lookup come before the guarded part, so their exceptions
      escape. */
  function IdentifyLeadsNode(s: State, sv: LeadServices): (r: Outcome<State>)
    ensures r.Ok? ==> r.value.Keys == WriteSet(IdentifyLeads) && r.value[Leads] == r.value[ProcessedLeads]
  {
    match FromRunnableConfig(sv.env, sv.config)
    case Raise(e) => Raise(e)
    case Ok(cfg) =>
      match Subscript(s, CompanyName, "company_name")
      case Raise(e) => Raise(e)
      case Ok(company) =>
        match Subscript(s, LeadGenerationArea, "lead_generation_area")
        case Raise(e) => Raise(e)
        case Ok(area) =>
          match Subscript(s, Titles, "titles")
          case Raise(e) => Raise(e)
          case Ok(titles) =>
            match TitlesText(titles)
            case Raise(e) => Raise(e)
            case Ok(titlesText) =>
              match sv.getModel(cfg.leadSearchModel)
              case Raise(e) => Raise(e)
              case Ok(_) =>
                Ok(SearchLeads(sv, SearchRequest(cfg.leadSearchModel, company, area, titlesText,
                                                 cfg.leadSearchTemperature)))
  }

  /** The lead step fails exactly when the configuration, an input field, the
      titles or the model lookup fails; everything after them is absorbed. */
  lemma IdentifyLeadsFailsOnlyBeforeCall(s: State, sv: LeadServices)
    ensures var cfg := FromRunnableConfig(sv.env, sv.config);
            IdentifyLeadsNode(s, sv).Raise?
            <==> (cfg.Raise? || CompanyName !in s || LeadGenerationArea !in s || Titles !in s
                  || TitlesText(s[Titles]).Raise? || sv.getModel(cfg.value.leadSearchModel).Raise?)
  {
  }

  /** A failed search call leaves an "Exception: " text and no leads. */
  lemma SearchFailureGivesNoLeads(sv: LeadServices, req: SearchRequest)
    requires sv.search(req).Raise?
    ensures SearchLeads(sv, req) == LeadsUpdate(ExceptionPrefix + sv.search(req).error, List([]))
  {
  }

  /** A parsed list is kept as it is, with the parser's text: an empty list
      flagged with "Error:" and one that is not give the same update. */
  lemma ParsedListKept(sv: LeadServices, req: SearchRequest)
    requires sv.search(req).Ok? && ParseSpec(sv.search(req).value, sv.decode).Ok?
    requires ParseSpec(sv.search(req).value, sv.decode).value.0.List?
    ensures var (leads, raw) := ParseSpec(sv.search(req).value, sv.decode).value;
            SearchLeads(sv, req) == LeadsUpdate(raw, leads)
  {
  }

  /** A response without a leads call whose text does not decode gives no
      leads and records the parser's text, which is flagged with "Error:" and
      ends with the response's stripped text (`FromTextFlagsErrors`). */
  lemma UndecodableResponseGivesNoLeads(sv: LeadServices, req: SearchRequest)
    requires sv.search(req).Ok?
    requires var parts := PartsOf(sv.search(req).value);
             (forall k :: 0 <= k < |parts| ==> !IsLeadsCall(parts[k]))
             && !sv.decode(JsonText(RawText(parts))).Decoded?
    ensures SearchLeads(sv, req) == LeadsUpdate(FromText(RawText(PartsOf(sv.search(req).value)), sv.decode).1, List([]))
  {
    var resp := sv.search(req).value;
    var raw := RawText(PartsOf(resp));
    ParseWithoutCalls(resp, sv.decode);
    UndecodedIsFlagged(raw, sv.decode);
    FlaggedEmptyParse(sv, req, FromText(raw, sv.decode).1);
  }

  lemma ParseWithoutCalls(resp: Response, decode: string -> DecodeResult)
    requires forall k :: 0 <= k < |PartsOf(resp)| ==> !IsLeadsCall(PartsOf(resp)[k])
    ensures ParseSpec(resp, decode) == Ok(FromText(RawText(PartsOf(resp)), decode))
  {
    ScanWithoutCalls(PartsOf(resp), "", decode);
    assert "" + RawText(PartsOf(resp)) == RawText(PartsOf(resp));
  }

  lemma UndecodedIsFlagged(raw: string, decode: string -> DecodeResult)
    requires !decode(JsonText(raw)).Decoded?
    ensures FromText(raw, decode).0 == List([]) && Contains(FromText(raw, decode).1, ErrorFlag)
  {
    FromTextFlagsErrors(raw, decode);
  }

  lemma FlaggedEmptyParse(sv: LeadServices, req: SearchRequest, t: string)
    requires sv.search(req).Ok? && ParseSpec(sv.search(req).value, sv.decode) == Ok((List([]), t))
    requires Contains(t, ErrorFlag)
    ensures SearchLeads(sv, req) == LeadsUpdate(t, List([]))
  {
  }

  /** A parsed value without a length, such as a number, is reported as an
      exception, unless it is falsy and the text is flagged. */
  lemma ParsedScalarGivesNoLeads(sv: LeadServices, req: SearchRequest)
    requires sv.search(req).Ok? && ParseSpec(sv.search(req).value, sv.decode).Ok?
    requires var (leads, raw) := ParseSpec(sv.search(req).value, sv.decode).value;
             !HasLen(leads) && (Truthy(leads) || !Contains(raw, ErrorFlag))
    ensures var u := SearchLeads(sv, req);
            u[Leads] == List([]) && u[RawSearchResults].s[..|ExceptionPrefix|] == ExceptionPrefix
  {
  }

  // ---------------------------------------------------------------------------
  // create_summary_report

  /** The text of a part, or nothing. */
  function TextOf(p: Part): string {
    if p.text.Some? then p.text.value else ""
  }

  /** The part texts run together, without separators. */
  function PartsText(parts: seq<Part>): string {
    if parts == [] then "" else PartsText(parts[..|parts| - 1]) + TextOf(parts[|parts| - 1])
  }

  /** The text the report is taken from: the response text when it is
      non-empty, else the part texts when there are parts. */
  function ReportSource(resp: Response): string {
    if resp.text.Some? && resp.text.value != "" then resp.text.value
    else if resp.parts.Some? && resp.parts.value != [] then PartsText(resp.parts.value)
    else ""
  }

  /** The report text: the stripped source, or the failure notice when that
      is empty. */
  function ReportTextOf(resp: Response): (t: string)
    ensures t != []
  {
    var stripped := Strip(ReportSource(resp));
    if stripped == [] then ReportFailed else stripped
  }

  /** The report text, accumulated part by part as the step does. */
  method ReportText(resp: Response) returns (text: string)
    ensures text == ReportTextOf(resp)
  {
    text := "";
    if resp.text.Some? && resp.text.value != "" {
      text := resp.text.value;
    } else if resp.parts.Some? && resp.parts.value != [] {
      var parts := resp.parts.value;
      var i := 0;
      while i < |parts|
        invariant i <= |parts|
        invariant text == PartsText(parts[..i])
      {
        assert parts[..i + 1][..i] == parts[..i];
        if parts[i].text.Some? {
          text := text + parts[i].text.value;
        }
        i := i + 1;
      }
      assert parts[..i] == parts;
    }
    text := Strip(text);
    if text == [] {
      text := ReportFailed;
    }
  }

  /** The report text is the stripped response text whenever that has
      anything but white space; otherwise it is the failure notice or comes
      from the parts. */
  lemma ReportTextPrefersText(resp: Response)
    ensures resp.text.Some? && Strip(resp.text.value) != [] ==> ReportTextOf(resp) == Strip(resp.text.value)
    ensures (resp.text.None? || resp.text.value == "") && (resp.parts.None? || resp.parts.value == [])
            ==> ReportTextOf(resp) == ReportFailed
  {
    if resp.text.Some? && Strip(resp.text.value) != [] {
      assert resp.text.value != [];
    }
    assert Strip("") == "";
  }

  /** The guarded part of `create_summary_report_node`: a failed call becomes
      an exception text. */
  function WriteReport(sv: LeadServices, req: ReportRequest): (report: string)
    ensures report != []
  {
    match sv.report(req)
    case Raise(m) => ReportExceptionPrefix + m
    case Ok(resp) => ReportTextOf(resp)
  }

  /** The leads the report lists: absent or None leads are none. */
  function ListedLeads(s: State): Value {
    if Get(s, ProcessedLeads) == Null then List([]) else Get(s, ProcessedLeads)
  }

  /** `create_summary_report_node`. The prompt's fragments and the model
      lookup come before the guarded part, so their exceptions escape. */
  function CreateSummaryReportNode(s: State, sv: LeadServices): (r: Outcome<State>)
    ensures r.Ok? ==> r.value.Keys == WriteSet(CreateSummaryReport) && r.value[Report].Str? && r.value[Report].s != []
  {
    match FromRunnableConfig(sv.env, sv.config)
    case Raise(e) => Raise(e)
    case Ok(cfg) =>
      match Subscript(s, CompanyName, "company_name")
      case Raise(e) => Raise(e)
      case Ok(company) =>
        match Subscript(s, LeadGenerationArea, "lead_generation_area")
        case Raise(e) => Raise(e)
        case Ok(area) =>
          match Subscript(s, Titles, "titles")
          case Raise(e) => Raise(e)
          case Ok(titles) =>
            match TitlesText(titles)
            case Raise(e) => Raise(e)
            case Ok(titlesText) =>
              match LeadsBlock(ListedLeads(s))
              case Raise(e) => Raise(e)
              case Ok(leadsText) =>
                match sv.getModel(cfg.reportGenerationModel)
                case Raise(e) => Raise(e)
                case Ok(_) =>
                  Ok(map[Report := Str(WriteReport(sv, ReportRequest(cfg.reportGenerationModel, company, area,
                                                                     titlesText, leadsText,
                                                                     cfg.reportGenerationTemperature)))])
  }

  /** The report step fails exactly when the configuration, an input field,
      the titles, the leads lines or the model lookup fails. */
  lemma SummaryFailsOnlyBeforeCall(s: State, sv: LeadServices)
    ensures var cfg := FromRunnableConfig(sv.env, sv.config);
            CreateSummaryReportNode(s, sv).Raise?
            <==> (cfg.Raise? || CompanyName !in s || LeadGenerationArea !in s || Titles !in s
                  || TitlesText(s[Titles]).Raise? || LeadsBlock(ListedLeads(s)).Raise?
                  || sv.getModel(cfg.value.reportGenerationModel).Raise?)
  {
  }

  /** A failed report call is reported in the report itself. */
  lemma ReportFailureReported(sv: LeadServices, req: ReportRequest)
    requires sv.report(req).Raise?
    ensures WriteReport(sv, req) == ReportExceptionPrefix + sv.report(req).error
  {
  }

  /** A report step that succeeds lists leads that are absent, falsy or a
      list of objects. */
  lemma ReportedLeadsAreObjects(s: State, sv: LeadServices)
    requires CreateSummaryReportNode(s, sv).Ok?
    ensures NoneOrObjects(ListedLeads(s))
  {
    LeadsBlockAcceptsObjects(ListedLeads(s));
  }

  // ---------------------------------------------------------------------------
  // Dispatch

  /** Dispatch to the step a node names. */
  function Execute(sv: LeadServices, n: Node, s: State): (r: Outcome<State>)
    ensures r.Ok? ==> r.value.Keys == WriteSet(n)
  {
    match n
    case IdentifyLeads => IdentifyLeadsNode(s, sv)
    case CreateSummaryReport => CreateSummaryReportNode(s, sv)
  }
}

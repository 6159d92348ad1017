/** The lead identification workflow's topology, its builder, the compile
    guard on the API key, and what every run does: both steps, in order, with
    a non-empty report. */
module LeadGraph {
  import opened Wrappers
  import opened Values
  import opened Workflow
  import opened LeadUtils
  import opened LeadConfig
  import opened LeadNodes

  /** The lead graph has only direct edges, so no router is ever asked. */
  datatype Router = NoRouter

  function Route(r: Router, s: State): string {
    ""
  }

  function Labels(r: Router): set<string> {
    {}
  }

  // ---------------------------------------------------------------------------
  // Topology

  const InputKeys: set<Key> := {CompanyName, LeadGenerationArea, Titles}
  const OutputKeys: set<Key> := {Leads, Report}

  const LeadNodeList: seq<Node> := [IdentifyLeads, CreateSummaryReport]

  const LeadEdges: seq<Edge<Node, Router>> := [
    Direct(Start, Go(IdentifyLeads)),
    Direct(At(IdentifyLeads), Go(CreateSummaryReport)),
    Direct(At(CreateSummaryReport), End)
  ]

  const LeadTopology: Graph<Node, Router, Key> := Graph(LeadNodeList, LeadEdges, InputKeys, OutputKeys)

  /** `create_lead_identification_graph`: two `add_node` calls, then the
      three edges. */
  method CreateLeadIdentificationGraph() returns (g: StateGraph<Node, Router, Key>)
    ensures fresh(g)
    ensures g.Snapshot() == LeadTopology
  {
    g := new StateGraph(InputKeys, OutputKeys);
    g.AddNode(IdentifyLeads);
    g.AddNode(CreateSummaryReport);
    g.AddEdge(Start, Go(IdentifyLeads));
    g.AddEdge(At(IdentifyLeads), Go(CreateSummaryReport));
    g.AddEdge(At(CreateSummaryReport), End);
  }

  const ApiKeyVariable: string := "GEMINI_API_KEY"
  const MissingApiKey: string := "ValueError: GEMINI_API_KEY environment variable not set. Cannot compile graph."

  /** `create_compiled_lead_identification_graph`: the graph compiles only
      when the API key is set to a non-empty value. */
  method CreateCompiledLeadIdentificationGraph(env: Environment) returns (r: Outcome<Graph<Node, Router, Key>>)
    ensures r.Ok? <==> ApiKeyVariable in env && env[ApiKeyVariable] != ""
    ensures r.Ok? ==> r.value == LeadTopology
    ensures r.Raise? ==> r.error == MissingApiKey
  {
    var g := CreateLeadIdentificationGraph();
    if ApiKeyVariable !in env || env[ApiKeyVariable] == "" {
      return Raise(MissingApiKey);
    }
    return Ok(g.Snapshot());
  }

  /** Every step has an outgoing edge and every edge joins declared steps. */
  lemma TopologyWellFormed()
    ensures WellFormed(LeadTopology, Labels)
  {
    FindEdgeAt(LeadEdges, Start, 0);
    FindEdgeAt(LeadEdges, At(IdentifyLeads), 1);
    FindEdgeAt(LeadEdges, At(CreateSummaryReport), 2);
  }

  function Rank(n: Node): nat {
    match n
    case IdentifyLeads => 1
    case CreateSummaryReport => 2
  }

  /** The edges only lead forward, so the graph has no cycle. */
  lemma TopologyRanked()
    ensures Ranked(LeadTopology, Rank, 2)
  {
  }

  // ---------------------------------------------------------------------------
  // Every run

  /** For any steps, a run with a step limit of at least two either stops
      with a step's exception or runs the lead step on the input and then
      the report step on the merged state, and ends. */
  lemma LinearRun(step: (Node, State) -> Outcome<State>, input: State, limit: nat)
    requires limit >= 2
    ensures var r := RunSpec(LeadTopology, Route, step, input, limit);
            var s0 := Project(input, InputKeys);
            (r.Aborted? ==> r.error.StepFailed?)
            && (r.Completed? ==>
                  |r.events| == 2 && r.events[0].node == IdentifyLeads && r.events[1].node == CreateSummaryReport
                  && step(IdentifyLeads, s0) == Ok(r.events[0].update)
                  && step(CreateSummaryReport, Merge(s0, r.events[0].update)) == Ok(r.events[1].update)
                  && r.final == Merge(Merge(s0, r.events[0].update), r.events[1].update))
  {
    FindEdgeAt(LeadEdges, Start, 0);
    FindEdgeAt(LeadEdges, At(IdentifyLeads), 1);
    FindEdgeAt(LeadEdges, At(CreateSummaryReport), 2);
    assert LeadTopology.edges == LeadEdges;
    var s0 := Project(input, InputKeys);
    assert Resolve(LeadEdges, Start, Route, s0) == Success(Go(IdentifyLeads));
    if step(IdentifyLeads, s0).Ok? {
      var u1 := step(IdentifyLeads, s0).value;
      var s1 := Merge(s0, u1);
      assert Resolve(LeadEdges, At(IdentifyLeads), Route, s1) == Success(Go(CreateSummaryReport));
      if step(CreateSummaryReport, s1).Ok? {
        var u2 := step(CreateSummaryReport, s1).value;
        var s2 := Merge(s1, u2);
        assert Resolve(LeadEdges, At(CreateSummaryReport), Route, s2) == Success(End);
        assert RunFrom(LeadTopology, Route, step, End, s2, limit - 2) == Success((s2, []));
        assert [Event(CreateSummaryReport, u2)] + [] == [Event(CreateSummaryReport, u2)];
        assert RunFrom(LeadTopology, Route, step, Go(CreateSummaryReport), s1, limit - 1)
            == Success((s2, [Event(CreateSummaryReport, u2)]));
        assert [Event(IdentifyLeads, u1)] + [Event(CreateSummaryReport, u2)]
            == [Event(IdentifyLeads, u1), Event(CreateSummaryReport, u2)];
        assert RunFrom(LeadTopology, Route, step, Go(IdentifyLeads), s0, limit)
            == Success((s2, [Event(IdentifyLeads, u1), Event(CreateSummaryReport, u2)]));
        assert RunSpec(LeadTopology, Route, step, input, limit)
            == Completed(Project(s2, OutputKeys), s2, [Event(IdentifyLeads, u1), Event(CreateSummaryReport, u2)]);
      } else {
        var failed := Failure(StepFailed(CreateSummaryReport, step(CreateSummaryReport, s1).error));
        assert RunFrom(LeadTopology, Route, step, Go(CreateSummaryReport), s1, limit - 1) == failed;
        assert RunFrom(LeadTopology, Route, step, Go(IdentifyLeads), s0, limit) == failed;
      }
    }
  }

  function Steps(sv: LeadServices): (Node, State) -> Outcome<State> {
    (n: Node, s: State) => Execute(sv, n, s)
  }

  /** What the lead step promises about its update. */
  predicate LeadsWritten(u: State) {
    u.Keys == WriteSet(IdentifyLeads) && Leads in u && ProcessedLeads in u && u[Leads] == u[ProcessedLeads]
  }

  /** What the report step promises about its update and the state it read. */
  predicate ReportWritten(s: State, u: State) {
    u.Keys == WriteSet(CreateSummaryReport) && Report in u && u[Report].Str? && u[Report].s != []
    && NoneOrObjects(ListedLeads(s))
  }

  ghost predicate KeepsPromises(step: (Node, State) -> Outcome<State>) {
    (forall s :: step(IdentifyLeads, s).Ok? ==> LeadsWritten(step(IdentifyLeads, s).value))
    && (forall s :: step(CreateSummaryReport, s).Ok? ==> ReportWritten(s, step(CreateSummaryReport, s).value))
  }

  lemma StepsKeepPromises(sv: LeadServices)
    ensures KeepsPromises(Steps(sv))
  {
    forall s | Steps(sv)(CreateSummaryReport, s).Ok?
      ensures ReportWritten(s, Steps(sv)(CreateSummaryReport, s).value)
    {
      ReportedLeadsAreObjects(s, sv);
    }
  }

  /** A completed lead run ran both steps, in order, and returns exactly the
      leads and the report: the report is a non-empty text, and the leads are
      the processed leads, which are none or a list of objects. A run that
      does not complete was stopped by a step's exception. */
  lemma LeadRun(sv: LeadServices, input: State, limit: nat)
    requires limit >= 2
    ensures var r := RunSpec(LeadTopology, Route, Steps(sv), input, limit);
            (r.Aborted? ==> r.error.StepFailed?)
            && (r.Completed? ==>
                  Nodes(r.events) == [IdentifyLeads, CreateSummaryReport]
                  && r.output.Keys == OutputKeys
                  && Report in r.output && Leads in r.output && ProcessedLeads in r.final
                  && r.output[Report].Str? && r.output[Report].s != []
                  && r.output[Leads] == r.final[ProcessedLeads]
                  && NoneOrObjects(r.output[Leads]))
  {
    StepsKeepPromises(sv);
    PromisedRun(Steps(sv), input, limit);
  }

  lemma PromisedRun(step: (Node, State) -> Outcome<State>, input: State, limit: nat)
    requires limit >= 2 && KeepsPromises(step)
    ensures var r := RunSpec(LeadTopology, Route, step, input, limit);
            (r.Aborted? ==> r.error.StepFailed?)
            && (r.Completed? ==>
                  Nodes(r.events) == [IdentifyLeads, CreateSummaryReport]
                  && r.output.Keys == OutputKeys
                  && Report in r.output && Leads in r.output && ProcessedLeads in r.final
                  && r.output[Report].Str? && r.output[Report].s != []
                  && r.output[Leads] == r.final[ProcessedLeads]
                  && NoneOrObjects(r.output[Leads]))
  {
    var r := RunSpec(LeadTopology, Route, step, input, limit);
    LinearRun(step, input, limit);
    if r.Completed? {
      var s0 := Project(input, InputKeys);
      var u1 := r.events[0].update;
      var s1 := Merge(s0, u1);
      var u2 := r.events[1].update;
      assert LeadsWritten(u1);
      assert ReportWritten(s1, u2);
      CompletedOutput(s0, u1, u2, r.final, r.output);
      assert Nodes(r.events) == [IdentifyLeads, CreateSummaryReport];
    }
  }

  /** The output of the two updates on a state of input fields. */
  lemma CompletedOutput(s0: State, u1: State, u2: State, final: State, output: State)
    requires s0.Keys <= InputKeys
    requires LeadsWritten(u1) && u2.Keys == WriteSet(CreateSummaryReport)
    requires final == Merge(Merge(s0, u1), u2) && output == Project(final, OutputKeys)
    ensures output.Keys == OutputKeys
    ensures output[Report] == u2[Report] && output[Leads] == u1[Leads] && final[ProcessedLeads] == u1[Leads]
    ensures ListedLeads(Merge(s0, u1)) == (if u1[Leads] == Null then List([]) else u1[Leads])
  {
  }
}

/** The research workflow's routers and topology, the run they describe, and
    what every run does: which path it takes, in which order the steps run,
    and that it ends after at most six steps. */
module ResearchGraph {
  import opened Wrappers
  import opened Values
  import opened Workflow
  import opened ResearchNodes

  // ---------------------------------------------------------------------------
  // Routers

  datatype Router = CompanyResearchRouter | VideoRouter | PodcastRouter

  const TopicOnlyPath: string := "topic_only_path"
  const CompanyLeadsPath: string := "company_leads_path"
  const AnalyzeVideoLabel: string := "analyze_video"
  const CreateReportLabel: string := "create_report"
  const CreatePodcastLabel: string := "create_podcast"

  /** The company path needs the company mode and both a company name and
      title areas. */
  predicate WantsCompanyPath(s: State) {
    Get(s, ResearchApproach) == Str(CompanyMode) && Truthy(Get(s, CompanyName)) && Truthy(Get(s, TitleAreas))
  }

  /** `should_perform_company_research`: a malformed company request falls back
      to the topic-only path rather than failing. */
  function ShouldPerformCompanyResearch(s: State): (l: string)
    ensures l == CompanyLeadsPath <==> WantsCompanyPath(s)
    ensures l != CompanyLeadsPath ==> l == TopicOnlyPath
  {
    if Get(s, ResearchApproach) == Str(CompanyMode) then
      if !Truthy(Get(s, CompanyName)) || !Truthy(Get(s, TitleAreas)) then TopicOnlyPath
      else CompanyLeadsPath
    else TopicOnlyPath
  }

  /** `should_analyze_video`. */
  function ShouldAnalyzeVideo(s: State): (l: string)
    ensures l == AnalyzeVideoLabel <==> Truthy(Get(s, VideoUrl))
    ensures l != AnalyzeVideoLabel ==> l == CreateReportLabel
  {
    if Truthy(Get(s, VideoUrl)) then AnalyzeVideoLabel else CreateReportLabel
  }

  /** `should_create_podcast`: an absent flag reads as false. */
  function ShouldCreatePodcast(s: State): (l: string)
    ensures l == CreatePodcastLabel <==> Truthy(Get(s, CreatePodcastFlag))
    ensures l != CreatePodcastLabel ==> l == EndLabel
  {
    if Truthy(GetOr(s, CreatePodcastFlag, Bool(false))) then CreatePodcastLabel else EndLabel
  }

  function Route(r: Router, s: State): string {
    match r
    case CompanyResearchRouter => ShouldPerformCompanyResearch(s)
    case VideoRouter => ShouldAnalyzeVideo(s)
    case PodcastRouter => ShouldCreatePodcast(s)
  }

  /** The labels each router can return. */
  function Labels(r: Router): set<string> {
    match r
    case CompanyResearchRouter => {TopicOnlyPath, CompanyLeadsPath}
    case VideoRouter => {AnalyzeVideoLabel, CreateReportLabel}
    case PodcastRouter => {CreatePodcastLabel, EndLabel}
  }

  /** Routing is total: every router returns one of its declared labels,
      whatever the state. */
  lemma RoutersKeepToLabels()
    ensures RoutesWithin(Route, Labels)
  {
    forall r: Router, s: State
      ensures Route(r, s) in Labels(r)
    {
      match r
      case CompanyResearchRouter => assert ShouldPerformCompanyResearch(s) in Labels(r);
      case VideoRouter => assert ShouldAnalyzeVideo(s) in Labels(r);
      case PodcastRouter => assert ShouldCreatePodcast(s) in Labels(r);
    }
  }

  // ---------------------------------------------------------------------------
  // Topology

  /** The fields the workflow reads from its input, and the ones it returns. */
  const InputKeys: set<Key> := {Topic, ResearchApproach, CompanyName, TitleAreas, VideoUrl, CreatePodcastFlag}
  const OutputKeys: set<Key> := {Report, PodcastScript, PodcastUrl}

  const ResearchNodeList: seq<Node> := [SearchResearch, CompanyTopicResearch, IdentifyLeads,
                                        SearchLinkedinViaCse, AnalyzeVideo, CreateReport, CreatePodcast]

  const StartBranches: map<string, Target<Node>> :=
    map[TopicOnlyPath := Go(SearchResearch), CompanyLeadsPath := Go(CompanyTopicResearch)]
  const VideoBranches: map<string, Target<Node>> :=
    map[AnalyzeVideoLabel := Go(AnalyzeVideo), CreateReportLabel := Go(CreateReport)]
  const PodcastBranches: map<string, Target<Node>> :=
    map[CreatePodcastLabel := Go(CreatePodcast), EndLabel := End]

  /** The edges in the order `create_research_graph` adds them. */
  const ResearchEdges: seq<Edge<Node, Router>> := [
    Conditional(Start, CompanyResearchRouter, StartBranches),
    Conditional(At(SearchResearch), VideoRouter, VideoBranches),
    Direct(At(CompanyTopicResearch), Go(IdentifyLeads)),
    Direct(At(IdentifyLeads), Go(SearchLinkedinViaCse)),
    Conditional(At(SearchLinkedinViaCse), VideoRouter, VideoBranches),
    Direct(At(AnalyzeVideo), Go(CreateReport)),
    Conditional(At(CreateReport), PodcastRouter, PodcastBranches),
    Direct(At(CreatePodcast), End)
  ]

  const ResearchTopology: Graph<Node, Router, Key> :=
    Graph(ResearchNodeList, ResearchEdges, InputKeys, OutputKeys)

  /** `create_research_graph`: seven `add_node` calls, then the edges. */
  method CreateResearchGraph() returns (g: StateGraph<Node, Router, Key>)
    ensures fresh(g)
    ensures g.Snapshot() == ResearchTopology
  {
    g := new StateGraph(InputKeys, OutputKeys);
    g.AddNode(SearchResearch);
    g.AddNode(CompanyTopicResearch);
    g.AddNode(IdentifyLeads);
    g.AddNode(SearchLinkedinViaCse);
    g.AddNode(AnalyzeVideo);
    g.AddNode(CreateReport);
    g.AddNode(CreatePodcast);
    AddResearchEdges(g);
  }

  /** The edge-adding half of `create_research_graph`. */
  method AddResearchEdges(g: StateGraph<Node, Router, Key>)
    requires g.edges == []
    modifies g
    ensures g.edges == ResearchEdges && g.nodes == old(g.nodes)
  {
    g.AddConditionalEdges(Start, CompanyResearchRouter, StartBranches);
    g.AddConditionalEdges(At(SearchResearch), VideoRouter, VideoBranches);
    g.AddEdge(At(CompanyTopicResearch), Go(IdentifyLeads));
    g.AddEdge(At(IdentifyLeads), Go(SearchLinkedinViaCse));
    g.AddConditionalEdges(At(SearchLinkedinViaCse), VideoRouter, VideoBranches);
    g.AddEdge(At(AnalyzeVideo), Go(CreateReport));
    g.AddConditionalEdges(At(CreateReport), PodcastRouter, PodcastBranches);
    g.AddEdge(At(CreatePodcast), End);
  }

  /** The index of the one edge leaving each source. */
  function EdgeIndex(src: Source<Node>): nat {
    match src
    case Start => 0
    case At(n) =>
      match n
      case SearchResearch => 1
      case CompanyTopicResearch => 2
      case IdentifyLeads => 3
      case SearchLinkedinViaCse => 4
      case AnalyzeVideo => 5
      case CreateReport => 6
      case CreatePodcast => 7
  }

  lemma EdgeOf(src: Source<Node>)
    ensures FindEdge(ResearchEdges, src) == EdgeIndex(src)
  {
    var i := EdgeIndex(src);
    assert ResearchEdges[i].from == src;
    FindEdgeAt(ResearchEdges, src, i);
  }

  /** The topology passes the checks a graph compiler makes: START and every
      step have an outgoing edge, every edge joins declared steps, and every
      label a router can return is mapped. */
  lemma TopologyWellFormed()
    ensures WellFormed(ResearchTopology, Labels)
  {
    forall n | n in ResearchNodeList
      ensures FindEdge(ResearchEdges, At(n)) >= 0
    {
      EdgeOf(At(n));
    }
    EdgeOf(Start);
    forall i | 0 <= i < |ResearchEdges|
      ensures EdgeWellFormed(ResearchNodeList, Labels, ResearchEdges[i])
    {
      EdgeWellFormedAt(i);
    }
  }

  lemma EdgeWellFormedAt(i: nat)
    requires i < |ResearchEdges|
    ensures EdgeWellFormed(ResearchNodeList, Labels, ResearchEdges[i])
  {
    var e := ResearchEdges[i];
    if e.Conditional? {
      assert e.branches.Keys == Labels(e.router);
    }
  }

  /** The edges only ever lead to a step of higher rank, so the graph has no
      cycle. */
  lemma TopologyRanked()
    ensures Ranked(ResearchTopology, Rank, 6)
  {
  }

  // ---------------------------------------------------------------------------
  // The transition function

  /** Where the run starts. */
  function Entry(s: State): Target<Node> {
    if WantsCompanyPath(s) then Go(CompanyTopicResearch) else Go(SearchResearch)
  }

  /** Where the run goes after step `n`, given whether a video URL and the
      podcast flag are set. */
  function NextStep(n: Node, video: bool, podcast: bool): Target<Node> {
    match n
    case SearchResearch | SearchLinkedinViaCse => if video then Go(AnalyzeVideo) else Go(CreateReport)
    case CompanyTopicResearch => Go(IdentifyLeads)
    case IdentifyLeads => Go(SearchLinkedinViaCse)
    case AnalyzeVideo => Go(CreateReport)
    case CreateReport => if podcast then Go(CreatePodcast) else End
    case CreatePodcast => End
  }

  /** Where the run goes after step `n` has left state `s`. */
  function Next(n: Node, s: State): Target<Node> {
    NextStep(n, Truthy(Get(s, VideoUrl)), Truthy(Get(s, CreatePodcastFlag)))
  }

  /** The edge table and the routers resolve the entry as `Entry` says. */
  lemma ResolveEntry(s: State)
    ensures Resolve(ResearchEdges, Start, Route, s) == Success(Entry(s))
  {
    EdgeOf(Start);
  }

  /** The edge table and the routers resolve every step as `Next` says. */
  lemma ResolveStep(n: Node, s: State)
    ensures Resolve(ResearchEdges, At(n), Route, s) == Success(Next(n, s))
  {
    EdgeOf(At(n));
  }

  // ---------------------------------------------------------------------------
  // Every run

  /** A rank that every edge strictly increases. */
  function Rank(n: Node): nat {
    match n
    case SearchResearch => 1
    case CompanyTopicResearch => 1
    case IdentifyLeads => 2
    case SearchLinkedinViaCse => 3
    case AnalyzeVideo => 4
    case CreateReport => 5
    case CreatePodcast => 6
  }

  /** The steps, run against the given collaborators. */
  function Steps(sv: Services): (Node, State) -> Outcome<State> {
    (n: Node, s: State) => Execute(sv, n, s)
  }

  /** The steps the run takes from `n` on. */
  function PathFrom(n: Node, video: bool, podcast: bool): seq<Node>
    decreases 7 - Rank(n)
  {
    [n] + match NextStep(n, video, podcast)
          case End => []
          case Go(m) => PathFrom(m, video, podcast)
  }

  /** The path a run takes, in closed form: the topic-only search or the three
      company steps, the video analysis when a URL is given, the report, and
      the podcast when it is asked for. */
  function PlannedPath(company: bool, video: bool, podcast: bool): seq<Node> {
    (if company then [CompanyTopicResearch, IdentifyLeads, SearchLinkedinViaCse] else [SearchResearch])
    + (if video then [AnalyzeVideo] else [])
    + [CreateReport]
    + (if podcast then [CreatePodcast] else [])
  }

  /** What follows the search steps: the video analysis when a URL is given,
      the report, and the podcast when it is asked for. */
  function Finish(video: bool, podcast: bool): seq<Node> {
    (if video then [AnalyzeVideo] else []) + [CreateReport] + (if podcast then [CreatePodcast] else [])
  }

  lemma PathFromReport(video: bool, podcast: bool)
    ensures PathFrom(CreateReport, video, podcast) == [CreateReport] + (if podcast then [CreatePodcast] else [])
  {
    if podcast {
      assert PathFrom(CreatePodcast, video, podcast) == [CreatePodcast];
    }
  }

  lemma PathFromSearch(n: Node, video: bool, podcast: bool)
    requires n == SearchResearch || n == SearchLinkedinViaCse
    ensures PathFrom(n, video, podcast) == [n] + Finish(video, podcast)
  {
    PathFromReport(video, podcast);
    if video {
      assert PathFrom(AnalyzeVideo, video, podcast) == [AnalyzeVideo] + PathFrom(CreateReport, video, podcast);
    }
  }

  lemma PathFromEntry(company: bool, video: bool, podcast: bool)
    ensures PathFrom(if company then CompanyTopicResearch else SearchResearch, video, podcast)
            == PlannedPath(company, video, podcast)
  {
    PathFromSearch(SearchLinkedinViaCse, video, podcast);
    PathFromSearch(SearchResearch, video, podcast);
    var f := Finish(video, podcast);
    assert PlannedPath(company, video, podcast)
        == (if company then [CompanyTopicResearch, IdentifyLeads, SearchLinkedinViaCse] else [SearchResearch]) + f;
    if company {
      assert PathFrom(IdentifyLeads, video, podcast) == [IdentifyLeads] + PathFrom(SearchLinkedinViaCse, video, podcast);
    }
  }

  lemma StepsWriteOwnFields(sv: Services)
    ensures WritesExactly(Steps(sv), WriteSet)
  {
  }

  /** A step writes no input field, so it leaves the fields the routers read
      as they were. */
  lemma MergeKeepsRouting(n: Node, s: State, u: State)
    requires u.Keys == WriteSet(n)
    ensures Get(Merge(s, u), VideoUrl) == Get(s, VideoUrl)
    ensures Get(Merge(s, u), CreatePodcastFlag) == Get(s, CreatePodcastFlag)
  {
    assert VideoUrl !in u && CreatePodcastFlag !in u;
  }

  /** The step from `n` in state `s`, when it succeeds and the edges lead on. */
  lemma RunFromStep(step: (Node, State) -> Outcome<State>, n: Node, s: State, budget: nat)
    requires budget > 0 && step(n, s).Ok?
    ensures var u := step(n, s).value;
            var s' := Merge(s, u);
            RunFrom(ResearchTopology, Route, step, Go(n), s, budget)
            == Prepend([Event(n, u)], RunFrom(ResearchTopology, Route, step, Next(n, s'), s', budget - 1))
  {
    var u := step(n, s).value;
    ResolveStep(n, Merge(s, u));
  }

  lemma NodesCons(e: Event<Node, Key>, evs: seq<Event<Node, Key>>)
    ensures Nodes([e] + evs) == [e.node] + Nodes(evs)
  {
    assert forall i :: 0 < i < |[e] + evs| ==> ([e] + evs)[i] == evs[i - 1];
  }

  /** Every step of the transition function climbs in rank. */
  lemma NextStepClimbs(n: Node, video: bool, podcast: bool)
    ensures NextStep(n, video, podcast).Go? ==> Rank(NextStep(n, video, podcast).node) > Rank(n)
  {
  }

  lemma PrependNodes(e: Event<Node, Key>, rest: Result<(State, seq<Event<Node, Key>>), RunError<Node>>,
                     tail: seq<Node>)
    requires rest.Success? ==> Nodes(rest.value.1) == tail
    ensures var r := Prepend([e], rest);
            (r.Failure? <==> rest.Failure?) && (r.Failure? ==> r.error == rest.error)
            && (r.Success? ==> Nodes(r.value.1) == [e.node] + tail)
  {
    if rest.Success? {
      NodesCons(e, rest.value.1);
    }
  }

  /** From any step on, with enough budget left, a run either fails in a step
      or follows `PathFrom`. */
  lemma {:induction false} RunFromFollowsPath(step: (Node, State) -> Outcome<State>, n: Node, s: State, budget: nat)
    requires WritesExactly(step, WriteSet)
    requires budget >= 7 - Rank(n)
    ensures var r := RunFrom(ResearchTopology, Route, step, Go(n), s, budget);
            (r.Failure? ==> r.error.StepFailed?)
            && (r.Success? ==> Nodes(r.value.1)
                               == PathFrom(n, Truthy(Get(s, VideoUrl)), Truthy(Get(s, CreatePodcastFlag))))
    decreases budget
  {
    if step(n, s).Ok? {
      var u := step(n, s).value;
      var s' := Merge(s, u);
      var video, podcast := Truthy(Get(s, VideoUrl)), Truthy(Get(s, CreatePodcastFlag));
      MergeKeepsRouting(n, s, u);
      RunFromStep(step, n, s, budget);
      var next := NextStep(n, video, podcast);
      assert Next(n, s') == next;
      var rest := RunFrom(ResearchTopology, Route, step, next, s', budget - 1);
      if next.Go? {
        NextStepClimbs(n, video, podcast);
        RunFromFollowsPath(step, next.node, s', budget - 1);
        PrependNodes(Event(n, u), rest, PathFrom(next.node, video, podcast));
      } else {
        PrependNodes(Event(n, u), rest, []);
      }
    }
  }

  /** The state the run starts from: the input restricted to the input schema,
      which agrees with the input on every field the routers read. */
  lemma StartState(input: State)
    ensures var s0 := Project(input, InputKeys);
            WantsCompanyPath(s0) == WantsCompanyPath(input)
            && Get(s0, VideoUrl) == Get(input, VideoUrl)
            && Get(s0, CreatePodcastFlag) == Get(input, CreatePodcastFlag)
  {
    assert ResearchApproach in InputKeys && CompanyName in InputKeys && TitleAreas in InputKeys;
    assert VideoUrl in InputKeys && CreatePodcastFlag in InputKeys;
  }

  /** Every run of the research workflow with a step limit of at least six
      (the executor's default is 25) either is aborted by a step that raises
      or completes after exactly the steps of `PlannedPath`: the topic-only
      search, or company research, lead identification and the LinkedIn
      search when the company mode comes with a company name and title areas;
      then the video analysis exactly when a video URL is given; then the
      report; then the podcast exactly when it is asked for. */
  lemma ResearchRunsFollowPlan(sv: Services, input: State, limit: nat)
    requires limit >= 6
    ensures var r := RunSpec(ResearchTopology, Route, Steps(sv), input, limit);
            (r.Aborted? ==> r.error.StepFailed?)
            && (r.Completed? ==> Nodes(r.events) == PlannedPath(WantsCompanyPath(input),
                                                                Truthy(Get(input, VideoUrl)),
                                                                Truthy(Get(input, CreatePodcastFlag))))
  {
    var s0 := Project(input, InputKeys);
    StartState(input);
    ResolveEntry(s0);
    var entry := Entry(s0);
    StepsWriteOwnFields(sv);
    RunFromFollowsPath(Steps(sv), entry.node, s0, limit);
    PathFromEntry(WantsCompanyPath(input), Truthy(Get(input, VideoUrl)), Truthy(Get(input, CreatePodcastFlag)));
  }

  /** The search steps write no output field. */
  lemma SearchWritesNoOutput(company: bool, video: bool)
    ensures var head := if company then [CompanyTopicResearch, IdentifyLeads, SearchLinkedinViaCse] else [SearchResearch];
            Written(WriteSet, head + (if video then [AnalyzeVideo] else [])) * OutputKeys == {}
  {
    var head := if company then [CompanyTopicResearch, IdentifyLeads, SearchLinkedinViaCse] else [SearchResearch];
    var v := if video then [AnalyzeVideo] else [];
    WrittenAppend(WriteSet, head, v);
    if company {
      assert Written(WriteSet, head) == WriteSet(CompanyTopicResearch) + Written(WriteSet, [IdentifyLeads, SearchLinkedinViaCse]);
      assert Written(WriteSet, [IdentifyLeads, SearchLinkedinViaCse])
          == WriteSet(IdentifyLeads) + Written(WriteSet, [SearchLinkedinViaCse]);
    }
  }

  /** The report step and the podcast step write the output fields. */
  lemma FinalStepsWriteOutputs(podcast: bool)
    ensures Written(WriteSet, [CreateReport] + (if podcast then [CreatePodcast] else [])) * OutputKeys
            == {Report} + (if podcast then {PodcastScript, PodcastUrl} else {})
  {
    var p := if podcast then [CreatePodcast] else [];
    WrittenCons(CreateReport, p);
  }

  lemma WrittenCons(n: Node, tail: seq<Node>)
    ensures Written(WriteSet, [n] + tail) == WriteSet(n) + Written(WriteSet, tail)
  {
    assert ([n] + tail)[1..] == tail;
  }

  /** The output fields the steps of a planned path write: the report, and
      the podcast fields when the podcast is asked for. */
  lemma PlannedOutputs(company: bool, video: bool, podcast: bool)
    ensures Written(WriteSet, PlannedPath(company, video, podcast)) * OutputKeys
            == {Report} + (if podcast then {PodcastScript, PodcastUrl} else {})
  {
    var head := if company then [CompanyTopicResearch, IdentifyLeads, SearchLinkedinViaCse] else [SearchResearch];
    var front := head + (if video then [AnalyzeVideo] else []);
    var back := [CreateReport] + (if podcast then [CreatePodcast] else []);
    assert PlannedPath(company, video, podcast) == front + back;
    WrittenAppend(WriteSet, front, back);
    SearchWritesNoOutput(company, video);
    FinalStepsWriteOutputs(podcast);
    DisjointUnion(Written(WriteSet, front), Written(WriteSet, back), OutputKeys);
  }

  lemma DisjointUnion(a: set<Key>, b: set<Key>, keys: set<Key>)
    requires a * keys == {}
    ensures (a + b) * keys == b * keys
  {
    forall k | k in (a + b) * keys
      ensures k in b
    {
      assert k !in a * keys;
    }
  }

  /** A completed run returns the report, and the podcast script and URL
      exactly when the podcast was asked for; nothing else. */
  lemma ResearchOutput(sv: Services, input: State, limit: nat)
    requires limit >= 6
    ensures var r := RunSpec(ResearchTopology, Route, Steps(sv), input, limit);
            r.Completed? ==> r.output.Keys == {Report} + (if Truthy(Get(input, CreatePodcastFlag))
                                                          then {PodcastScript, PodcastUrl} else {})
  {
    var r := RunSpec(ResearchTopology, Route, Steps(sv), input, limit);
    StepsWriteOwnFields(sv);
    ResearchRunsFollowPlan(sv, input, limit);
    CompletedRunWrites(ResearchTopology, Route, Steps(sv), WriteSet, input, limit);
    CompletedRunReplaysStream(ResearchTopology, Route, Steps(sv), input, limit);
    if r.Completed? {
      var company, video, podcast := WantsCompanyPath(input), Truthy(Get(input, VideoUrl)),
                                     Truthy(Get(input, CreatePodcastFlag));
      PlannedOutputs(company, video, podcast);
      OutputFromParts(r.output.Keys, r.final.Keys, input.Keys * InputKeys,
                      Written(WriteSet, PlannedPath(company, video, podcast)));
    }
  }

  lemma OutputFromParts(outKeys: set<Key>, finalKeys: set<Key>, inKeys: set<Key>, written: set<Key>)
    requires outKeys == finalKeys * OutputKeys
    requires finalKeys == inKeys + written
    requires inKeys <= InputKeys
    ensures outKeys == written * OutputKeys
  {
    DisjointUnion(inKeys, written, OutputKeys);
  }

  /** What the planned path promises, step by step. */
  lemma PlannedPathFacts(company: bool, video: bool, podcast: bool)
    ensures var ns := PlannedPath(company, video, podcast);
            2 <= |ns| <= 6 && CreateReport in ns
            && (ns[0] == CompanyTopicResearch <==> company)
            && (AnalyzeVideo in ns <==> video)
            && (CreatePodcast in ns <==> podcast)
            && ns[|ns| - 1] == (if podcast then CreatePodcast else CreateReport)
            && (podcast ==> ns[|ns| - 2] == CreateReport)
  {
    var head := if company then [CompanyTopicResearch, IdentifyLeads, SearchLinkedinViaCse] else [SearchResearch];
    var v := if video then [AnalyzeVideo] else [];
    var p := if podcast then [CreatePodcast] else [];
    var ns := PlannedPath(company, video, podcast);
    assert ns == head + v + [CreateReport] + p;
    assert AnalyzeVideo !in head && CreatePodcast !in head + v + [CreateReport];
  }

  /** A completed run starts with company research exactly in the company
      mode with a company name and title areas, analyses the video exactly
      when a URL is given, always writes the report, creates the podcast
      exactly when asked and then as the last step right after the report,
      and runs no step twice. */
  lemma ResearchRunFacts(sv: Services, input: State, limit: nat)
    requires limit >= 6
    ensures var r := RunSpec(ResearchTopology, Route, Steps(sv), input, limit);
            r.Completed? ==>
              var ns := Nodes(r.events);
              2 <= |ns| <= 6 && CreateReport in ns
              && (ns[0] == CompanyTopicResearch <==> WantsCompanyPath(input))
              && (AnalyzeVideo in ns <==> Truthy(Get(input, VideoUrl)))
              && (CreatePodcast in ns <==> Truthy(Get(input, CreatePodcastFlag)))
              && (CreatePodcast in ns ==> ns[|ns| - 1] == CreatePodcast && ns[|ns| - 2] == CreateReport)
              && RanksIncrease(ns, Rank)
  {
    ResearchRunsFollowPlan(sv, input, limit);
    PlannedPathFacts(WantsCompanyPath(input), Truthy(Get(input, VideoUrl)), Truthy(Get(input, CreatePodcastFlag)));
    TopologyRanked();
    RankedRunsTerminate(ResearchTopology, Rank, 6, Route, Steps(sv), input, limit);
  }
}

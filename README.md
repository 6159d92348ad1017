# Multi-modal research agent and lead identification agent, modelled in Dafny

The repository defines two LangGraph workflows driven by Gemini.

- **The research workflow** (`src/agent`). It researches a topic on the web. In the "Topic Company Leads" mode it also researches a company, identifies leads there and searches LinkedIn contacts. It can analyse a video, then writes a markdown report and, when asked, a podcast.
- **The lead identification workflow** (`src/lead_agent`). It asks Gemini for leads at a company, parses the JSON answer, and then asks for a summary report of what was found.

The model has three layers.

- **The executor** (module `Workflow`). A graph is a list of nodes and edges. An edge is direct, or a router with a path map. Each step returns a partial update, and the update overwrites the state key by key. A run starts from the input restricted to the input schema. It follows the edges until END, a step's exception, a routing error or the step limit, and returns the state restricted to the output schema. `StateGraph` is the builder class whose `add_*` methods append to its tables. `Run` is the executor loop, proved equal to the recursive specification `RunSpec`. Generic theorems cover well-formed graphs (no routing errors), ranked graphs (no step-limit errors, no node runs twice), and what a completed run has written.
- **Each workflow's steps and topology**:
  - `ResearchNodes` and `ResearchGraph` for the research workflow.
  - `LeadNodes` and `LeadGraph` for the lead workflow.
  - The routers, the builders, the compile guard on the API key, and theorems about every possible run: which steps run, in which order, and which output fields a completed run returns.
- **The helpers**:
  - `AgentUtils`: Gemini answer display, report markdown, storage object names, upload fallbacks.
  - `LeadUtils`: Gemini JSON parsing, prompt fragments.
  - `LeadConfig`: configuration resolution.
  - `Values` and `Text`: the Python values and string methods the code relies on.

Gemini, Google Search, the Custom Search Engine, Cloud Storage and the JSON decoder are collaborators. Each one is a function from what it is handed to an `Outcome` (a value, or an exception message). The `Services` and `LeadServices` datatypes carry them, together with the environment settings the steps read. The model therefore states what the code does for every behaviour of those services.

## Model

| member | source | states |
|---|---|---|
| Values.Or | src/agent/graph.py:279-281 | `a or b` is the first operand when it is truthy, else the second |
| Values.Subscript | src/lead_agent/graph.py:28-30 | `state[k]` succeeds exactly when the key is present, and then gives its value (otherwise KeyError) |
| Values.NatToStringDigits | src/agent/utils.py:56 | the decimal rendering of a source number has only digits |
| Text.StripSound | src/lead_agent/utils.py:56 | `strip()` gives the infix with only white space around it, and neither end of it is white space |
| Text.LStripRemovesSpace | src/lead_agent/utils.py:56 | everything `lstrip` removes is white space |
| Text.RStripRemovesSpace | src/agent/graph.py:295 | everything `rstrip` removes is white space |
| Text.StripIdempotent | src/lead_agent/graph.py:130 | stripping twice is stripping once |
| Text.Find | src/lead_agent/utils.py:52-54 | `find` gives -1 exactly when there is no occurrence at or after `from`, else the lowest such occurrence |
| Text.Lower | src/agent/graph.py:104 | `lower()` keeps the length and lowers each character |
| Text.Upper | src/lead_agent/configuration.py:29 | `upper()` keeps the length and raises each character |
| Text.JoinSnoc | src/agent/utils.py:58 | joining one more part appends the separator and the part; a single part is itself |
| Text.SplitJoin | src/lead_agent/utils.py:119 | splitting a join on its one-character separator gives back parts that do not contain it |
| Text.Filter | src/agent/graph.py:295 | the generator filter is no longer than its input and keeps only characters that pass the test |
| Text.FilterAppend | src/agent/graph.py:295 | filtering a concatenation is the concatenation of the filtered parts, so nothing is reordered |
| Text.FilterSnoc | src/agent/graph.py:295 | one more character is appended exactly when it passes the test, so every passing character is kept |
| Text.FilterAll | src/agent/graph.py:295 | a filter that every character passes changes nothing |
| Text.ReplaceChar | src/agent/graph.py:295 | `replace(' ', '_')` changes exactly the spaces |
| AgentUtils.DisplayGeminiResponse | src/agent/utils.py:25-69 | the answer text is returned unchanged; the sources text is empty exactly when there is no grounding metadata, no chunk list, or no chunk with a web source |
| AgentUtils.CollectSources | src/agent/utils.py:47-58 | the loop over the chunks, numbered from 1, yields the entries of the web chunks joined by newlines |
| AgentUtils.SourceEntriesEmpty | src/agent/utils.py:49-58 | there are no entries exactly when no chunk has a web source |
| AgentUtils.SourcesTextEmpty | src/agent/utils.py:37-58 | the sources text is empty exactly when grounding or its chunk list is absent, or no chunk has a web source |
| AgentUtils.SourceEntriesCount | src/agent/utils.py:49-56 | there is one entry per chunk with a web source |
| AgentUtils.SourceEntryListed | src/agent/utils.py:50-56 | the web chunk at position p is listed with number p + 1 |
| AgentUtils.SourceEntriesSnoc | src/agent/utils.py:50-56 | entries are appended in chunk order |
| AgentUtils.SourceEntriesNonEmpty | src/agent/utils.py:52-56 | a missing or empty title or URI falls back to "No title" / "No URI", so no entry is empty |
| AgentUtils.JoinNonEmpty | src/agent/utils.py:58 | a join is empty exactly when there are no parts, when every part is non-empty |
| AgentUtils.ReportMarkdownLayout | src/agent/utils.py:300-316 | the report starts with the header naming the topic; the synthesis, the video section and the sources section follow in order; the footer ends it |
| AgentUtils.SafeName | src/agent/utils.py:330-331 | the sanitised name is no longer than its input and holds only alphanumerics, '-' and '_' |
| AgentUtils.SafeNameIdempotent | src/agent/graph.py:295 | sanitising a sanitised name changes nothing |
| AgentUtils.SafeNameKeeps | src/agent/graph.py:295 | a name of alphanumerics, '-' and '_' is kept as it is |
| AgentUtils.JoinKept | src/agent/graph.py:295 | the generator over the iterated items succeeds exactly when every item is a string, and its joined result holds only alphanumerics, spaces, '-' and '_' |
| AgentUtils.Sanitize | src/agent/utils.py:330-331 | sanitising a value succeeds exactly for a string or a list of strings, and the name holds only alphanumerics, '-' and '_' |
| AgentUtils.JoinKeptChars | src/agent/graph.py:295 | iterating a string keeps its characters that pass the name test, in order |
| AgentUtils.SanitizeString | src/agent/graph.py:295 | a string value sanitises to SafeName of the string |
| AgentUtils.JoinKeptNames | src/agent/graph.py:295 | iterating a list of strings keeps the strings that are alphanumeric or one of " ", "-", "_", in order |
| AgentUtils.SanitizeList | src/agent/graph.py:295 | a list of strings sanitises to its kept strings joined, trailing spaces stripped and spaces turned into '_' |
| AgentUtils.SanitizeNotIterable | src/agent/graph.py:295 | sanitising None, a boolean or a number raises "object is not iterable" |
| AgentUtils.ReportObjectPath | src/agent/utils.py:330-332 | the path exists exactly when the topic sanitises; it is "reports/research_report_", then only alphanumerics, '-' and '_', then ".md" |
| AgentUtils.CreateResearchReport | src/agent/utils.py:223-352 | fails exactly when the synthesis call fails; returns the synthesis text; returns the signed URL when a bucket is set, the topic sanitises and the upload of the markdown report to its object path succeeds, else the markdown report itself |
| AgentUtils.CreatePodcastDiscussion | src/agent/utils.py:81-220 | fails exactly when the script or the audio fails; returns the script; the URL is present exactly when a bucket is set and the upload to "podcasts/" + file name succeeds, and is then the upload's URL |
| ResearchNodes.FindsFirstOccurrence | src/agent/graph.py:104 | the lowered `find` returns the first case-insensitive occurrence of the marker |
| ResearchNodes.SplitAtFirstMarker | src/agent/graph.py:104-107 | at the first occurrence, the split gives the stripped text before and after the marker |
| ResearchNodes.SplitWithoutMarker | src/agent/graph.py:101-113 | without the marker, the whole text is the company-specific part and the general part is "" |
| ResearchNodes.SplitRoundTrip | src/agent/graph.py:100-107 | splitting `a + marker + b`, with no ':' in `a`, gives back the stripped `a` and `b` |
| ResearchNodes.SplitCompanyResearchRoundTrip | src/agent/graph.py:100-107 | the split undoes composing the two sections around "General Company Information:" |
| ResearchNodes.SplitCompanyResearchNoMarker | src/agent/graph.py:101-113 | an answer with no ':' is kept whole |
| ResearchNodes.PodcastResearchText | src/agent/graph.py:278-291 | company mode uses the company-specific text, or else the company info; other modes use the search text; the synthesis is the fallback, taken exactly when those texts are all falsy and the synthesis is truthy |
| ResearchNodes.CompanySegment | src/agent/graph.py:296-301 | "_" + the sanitised company name, only in company mode with a truthy name that sanitises to something non-empty; raises exactly when such a truthy name cannot be sanitised |
| ResearchNodes.PodcastFilenameShape | src/agent/graph.py:295-303 | whenever the file name can be built it is "research_podcast_", then alphanumerics, '-' and '_' only, then ".wav" |
| ResearchNodes.PodcastFilenameOf | src/agent/graph.py:295-303 | the name is built exactly when the topic sanitises and the company segment can be built; the topic's exception comes first |
| ResearchNodes.SearchResearchNode | src/agent/graph.py:28-59 | succeeds exactly when the topic is present and the search succeeds; writes exactly the search text and the sources |
| ResearchNodes.CompanyTopicResearchNode | src/agent/graph.py:61-120 | a missing topic raises; without a company name both fields hold the error text; otherwise the answer is split at the marker |
| ResearchNodes.IdentifyLeadsNode | src/agent/graph.py:123-154 | without a company name or title areas both lead fields are empty lists; otherwise both hold the leads found |
| ResearchNodes.SearchLinkedinViaCseNode | src/agent/graph.py:227-258 | without a company name, title areas or either search credential the contacts are empty; otherwise the search asks for 10 contacts |
| ResearchNodes.AnalyzeVideoNode | src/agent/graph.py:156-179 | a missing topic raises even without a video; without a URL the fixed text is written; otherwise the video answer's text |
| ResearchNodes.ReportRequestOf | src/agent/graph.py:185-212 | the report call is handed the topic, the approach and every optional field read with `get` |
| ResearchNodes.CreateReportNode | src/agent/graph.py:182-225 | succeeds exactly when topic and approach are present and the report call succeeds; writes exactly the report and the synthesis |
| ResearchNodes.CreatePodcastNode | src/agent/graph.py:262-320 | succeeds exactly when topic and approach are present, the topic and any company name sanitise, and the collaborators succeed; writes the script, and the URL only when the upload succeeded |
| ResearchNodes.Execute | src/agent/graph.py:28-320 | a step that succeeds writes exactly its own fields |
| ResearchGraph.ShouldPerformCompanyResearch | src/agent/graph.py:337-346 | the company path is taken exactly in the company mode with a truthy company name and title areas; otherwise the topic-only path |
| ResearchGraph.ShouldAnalyzeVideo | src/agent/graph.py:322-327 | video analysis exactly when the video URL is truthy, else the report |
| ResearchGraph.ShouldCreatePodcast | src/agent/graph.py:329-334 | the podcast exactly when the flag is truthy (an absent flag is false), else END |
| ResearchGraph.RoutersKeepToLabels | src/agent/graph.py:369-414 | every router returns a label of its path map |
| ResearchGraph.CreateResearchGraph | src/agent/graph.py:349-418 | the builder produces the seven nodes and the edges in the order they are added |
| ResearchGraph.AddResearchEdges | src/agent/graph.py:369-416 | the edge calls append exactly the research edge table |
| ResearchGraph.TopologyWellFormed | src/agent/graph.py:349-418 | START and every node have an outgoing edge, and every edge joins declared nodes through declared labels |
| ResearchGraph.TopologyRanked | src/agent/graph.py:369-416 | every edge leads to a node of higher rank, at most 6, so the graph has no cycle |
| ResearchGraph.ResolveEntry | src/agent/graph.py:369-376 | the entry edge resolves to the company research exactly on the company path |
| ResearchGraph.ResolveStep | src/agent/graph.py:380-416 | every node's outgoing edge resolves as the transition function says |
| ResearchGraph.NextStepClimbs | src/agent/graph.py:369-416 | every transition climbs in rank |
| ResearchGraph.StepsWriteOwnFields | src/agent/graph.py:28-320 | every step that succeeds writes exactly its own fields |
| ResearchGraph.MergeKeepsRouting | src/agent/graph.py:322-334 | no step changes the fields the routers read |
| ResearchGraph.RunFromFollowsPath | src/agent/graph.py:369-416 | from any node, with enough budget, a run fails in a step or completes along the planned path |
| ResearchGraph.ResearchRunsFollowPlan | src/agent/graph.py:337-416 | with a step limit of at least 6, every run is aborted by a raising step, or completes after exactly: the topic search, or company research, leads and LinkedIn search; the video exactly when a URL is given; the report; the podcast exactly when asked |
| ResearchGraph.PlannedPathFacts | src/agent/graph.py:369-416 | the planned path has 2 to 6 steps, always the report, the video and podcast exactly when asked, and the podcast last and right after the report |
| ResearchGraph.ResearchRunFacts | src/agent/graph.py:337-416 | the same facts hold of every completed run's step sequence |
| ResearchGraph.PlannedOutputs | src/agent/graph.py:182-320 | the steps of a planned path write the report, and the podcast fields exactly when the podcast runs |
| ResearchGraph.ResearchOutput | src/agent/graph.py:349-356 | a completed run returns the report, plus the podcast script and URL exactly when the podcast was asked for, and nothing else |
| Workflow.Merge | src/lead_agent/graph.py:78-82 | a step's update overwrites its own keys and leaves every other key untouched |
| Workflow.Project | src/lead_agent/graph.py:147-152 | restricting to a schema keeps exactly the schema's keys, with their values |
| Workflow.FindEdgeFirst | src/lead_agent/graph.py:160-162 | the edge found is the first leaving its source, and none is found exactly when no edge leaves it |
| Workflow.Resolve | src/agent/graph.py:369-376 | a resolved target is one the edge can lead to; a missing edge and an unmapped label are the only errors |
| Workflow.Run | src/agent/graph.py:421-424 | the executor loop gives exactly the recursive run specification |
| Workflow.PrependTwice | src/agent/graph.py:421-424 | prepending events twice is prepending their concatenation |
| Workflow.CompletedRunReplaysStream | src/agent/graph.py:421-424 | a completed run's final state is the restricted input with the streamed updates replayed in order; its output is that state restricted to the output schema |
| Workflow.CompletedRunWrites | src/agent/graph.py:421-424 | a completed run's final state holds exactly the input fields and the fields its steps wrote |
| Workflow.WellFormedRunsNeverMisroute | src/agent/graph.py:421-424 | in a well-formed graph whose routers keep to their labels, a run fails only by running out of steps or by a step's exception |
| Workflow.RankedRunsTerminate | src/agent/graph.py:421-424 | in a ranked graph with a step limit at least the rank bound, a run never exceeds the limit, never runs a node twice and runs at most bound steps |
| Workflow.StateGraph.constructor | src/agent/graph.py:351-356 | a new graph has no nodes and no edges, and the given input and output schemas |
| Workflow.StateGraph.AddNode | src/agent/graph.py:360-366 | `add_node` appends the node and changes no edge |
| Workflow.StateGraph.AddEdge | src/lead_agent/graph.py:160-162 | `add_edge` appends a direct edge and changes no node |
| Workflow.StateGraph.AddConditionalEdges | src/agent/graph.py:369-376 | `add_conditional_edges` appends a routed edge with its path map and changes no node |
| LeadUtils.ParseGeminiJsonResponse | src/lead_agent/utils.py:21-67 | the part-by-part scan equals the parser's specification, which decodes the corrected fence slice (see Findings) |
| LeadUtils.ScanWithoutCalls | src/lead_agent/utils.py:26-64 | without a leads call the result is the text fallback applied to every part's text, each followed by a newline |
| LeadUtils.ScanStopsAtFirstCall | src/lead_agent/utils.py:28-46 | the first part with a leads call decides the result, with the text of the parts up to and including it; later parts are never read |
| LeadUtils.FromTextFlagsErrors | src/lead_agent/utils.py:50-67 | a text that decodes gives its value and the stripped text; one that does not gives no leads and an "Error:" text ending with the stripped text |
| LeadUtils.FenceAsWrittenKeepsTagLetter | src/lead_agent/utils.py:52-56 | as written, an extracted fenced block always starts with the tag's "n" |
| LeadUtils.FenceBodies | src/lead_agent/utils.py:52-57 | for one fenced block, skipping the whole tag extracts the stripped block; the source's offset extracts it behind an "n" |
| LeadUtils.FenceOffsetDiscrepancy | src/lead_agent/utils.py:52-57 | for a text that is the json fence tag, a body and a closing fence, the source hands the decoder "n" + body where the body was meant |
| LeadUtils.TitlesTextSnoc | src/lead_agent/utils.py:72 | the titles text lists each title in single quotes, separated by ", ", in order |
| LeadUtils.LeadsSummary | src/lead_agent/utils.py:112-119 | the line-by-line loop builds exactly the leads block |
| LeadUtils.LeadLinesOk | src/lead_agent/utils.py:113-115 | the lead lines can be built exactly when every lead is an object |
| LeadUtils.LeadLinesInOrder | src/lead_agent/utils.py:113-115 | there is one line per lead, in order, each that lead's name and title line |
| LeadUtils.LeadLinesStopAt | src/lead_agent/utils.py:114-115 | the first lead without `get` decides the error |
| LeadUtils.LeadsBlockAcceptsObjects | src/lead_agent/utils.py:112-119 | the block can be built exactly for falsy leads or a list of objects |
| LeadUtils.LeadsBlockOneLinePerLead | src/lead_agent/utils.py:112-119 | splitting the block at newlines gives back one line per lead |
| LeadConfig.FieldPrecedence | src/lead_agent/configuration.py:25-33 | a non-empty environment variable wins; an empty one leaves the default; without one a truthy configurable entry wins; otherwise the default |
| LeadConfig.FieldsTruthyOrDefault | src/lead_agent/configuration.py:33 | every resolved field is truthy or its default |
| LeadConfig.NothingSetGivesDefaults | src/lead_agent/configuration.py:13-33 | with an empty environment and no configurable settings every field has its default |
| LeadConfig.ExtraKeysIgnored | src/lead_agent/configuration.py:28-32 | only the four declared fields are read |
| LeadConfig.MissingConfigurableIsEmpty | src/lead_agent/configuration.py:25-27 | a config without "configurable" resolves as empty settings |
| LeadNodes.SearchLeads | src/lead_agent/graph.py:38-91 | writes exactly the raw text, processed leads and leads; the leads equal the processed leads; the raw field is text |
| LeadNodes.IdentifyLeadsNode | src/lead_agent/graph.py:24-91 | on success writes exactly the lead fields, with leads equal to processed leads |
| LeadNodes.IdentifyLeadsFailsOnlyBeforeCall | src/lead_agent/graph.py:24-45 | the lead step raises exactly when the configuration, an input field, the titles or the model lookup raises |
| LeadNodes.SearchFailureGivesNoLeads | src/lead_agent/graph.py:84-91 | a failed search records "Exception: " + its message and no leads |
| LeadNodes.ParsedListKept | src/lead_agent/graph.py:66-82 | a parsed list is stored as it is, with the parser's text |
| LeadNodes.UndecodableResponseGivesNoLeads | src/lead_agent/graph.py:66-75 | a response without a leads call whose text does not decode gives no leads and the parser's error text |
| LeadNodes.ParsedScalarGivesNoLeads | src/lead_agent/graph.py:77-91 | a parsed value without `len` ends as an "Exception: " text and no leads, unless it is falsy with a flagged text |
| LeadNodes.ReportText | src/lead_agent/graph.py:122-133 | the accumulation loop gives exactly the report text |
| LeadNodes.ReportTextOf | src/lead_agent/graph.py:122-133 | the report text is never empty |
| LeadNodes.ReportTextPrefersText | src/lead_agent/graph.py:122-133 | non-blank response text is the stripped report; no text and no parts give the failure notice |
| LeadNodes.WriteReport | src/lead_agent/graph.py:114-141 | the guarded report is never empty |
| LeadNodes.ReportFailureReported | src/lead_agent/graph.py:139-141 | a failed report call gives "Exception during report generation: " + its message |
| LeadNodes.CreateSummaryReportNode | src/lead_agent/graph.py:95-141 | on success writes exactly the report, a non-empty text |
| LeadNodes.SummaryFailsOnlyBeforeCall | src/lead_agent/graph.py:95-112 | the report step raises exactly when the configuration, an input field, the titles, the lead lines or the model lookup raises |
| LeadNodes.ReportedLeadsAreObjects | src/lead_agent/graph.py:102-108 | a report step that succeeds read leads that are absent, falsy or a list of objects |
| LeadNodes.Execute | src/lead_agent/graph.py:24-141 | a step that succeeds writes exactly its own fields |
| LeadGraph.CreateLeadIdentificationGraph | src/lead_agent/graph.py:144-164 | the builder produces the two nodes and the three edges START → identify → report → END |
| LeadGraph.CreateCompiledLeadIdentificationGraph | src/lead_agent/graph.py:166-173 | compiles exactly when GEMINI_API_KEY is set and non-empty; otherwise raises the ValueError |
| LeadGraph.TopologyWellFormed | src/lead_agent/graph.py:156-162 | START and both nodes have an outgoing edge, and every edge joins declared nodes |
| LeadGraph.TopologyRanked | src/lead_agent/graph.py:160-162 | the edges only lead forward, so the graph has no cycle |
| LeadGraph.LinearRun | src/lead_agent/graph.py:156-162 | for any steps, a run is aborted by a step's exception, or runs the lead step on the input, then the report step on the merged state, and ends |
| LeadGraph.PromisedRun | src/lead_agent/graph.py:156-162 | steps keeping the node promises give a completed run with both steps in order, exactly the leads and report as output, a non-empty report, and leads that are the processed leads |
| LeadGraph.LeadRun | src/lead_agent/graph.py:147-162 | every lead run is aborted by a step's exception, or completes with both steps in order; its output is exactly leads and report, with a non-empty report and leads that are absent, falsy or a list of objects |

## Left out

- **Collaborators.** Gemini, Google Search, the Custom Search Engine, Cloud Storage, the speech synthesis, the local file write and `json.loads` are parameters, each a function to an outcome. Prompt wording, debug prints, the console display of `display_gemini_response` and `@traceable` tracing are not modelled.
- **How the collaborators are called.**
  - `get_gemini_model` takes one argument, but both lead steps call it with two.
  - `call_gemini_api` accepts no `is_json_output_expected` keyword, but both lead steps pass it.
  - As written, both calls would raise TypeError. The model treats the lookup and the call as collaborator outcomes (`getModel`, `search`, `report`), so it covers every outcome, including those exceptions.
  - The lookup sits outside the `try` block, so its exception escapes the step. The call sits inside, so its exception is recorded in the state.
- **Research report call.** `create_report_node` calls `create_research_report` with keywords its definition lacks (`research_approach` and the company fields). The node's report call is therefore a collaborator outcome. `AgentUtils.CreateResearchReport` models the definition itself.
- **Exception messages.** Python's `str(e)` drops the exception class name. Messages carried by `Raise` keep it (for example "KeyError: 'topic'"), so a recorded text built from such a message carries that extra prefix. The `len` failure that `LeadNodes.SearchLeads` records is written with Python's own text, without the prefix.
- **Numbers, temperatures and rendering.**
  - Temperatures are opaque values handed on to the calls.
  - There is no floating point.
  - `Values.PyStr` renders floats, lists and dicts by their type name only.
- **ASCII only.** `lower`, `upper` and `isalnum` are modelled on ASCII. Unicode case mapping and Unicode letters are not. `isspace` is Python's full white-space set, so `strip`, `lstrip` and `rstrip` match Python on all of Unicode.
- **Iterating a dict.** Iterating a dict (`Values.Iterate`) raises in the model with a message of the model's own, because the model's dicts keep no key order. Python would yield its keys. For titles this gives an error where Python would list the keys. For leads the outcome is the same either way, because a key has no `get`.
- AgentUtils.Sanitize: a dict topic or company name raises in the model, where Python would join its name-safe keys. The report then falls back to its content, and the podcast step raises.
- **Executor limits.**
  - The LangGraph step limit is a parameter of the run.
  - Compilation is modelled as the structural well-formedness check.
  - Streaming is modelled as the sequence of step events.
  - Reducers, checkpointing, interrupts and parallel branches are not modelled; the graphs here use none of them.
- **Typed schemas.** The input, output and config schemas are modelled as key sets. Their typed-dict field types are not checked.
- ResearchGraph.InputKeys: the research input schema is widened to the fields the steps read. `ResearchStateInput` in src/agent/state.py declares only `topic`, `video_url` and `create_podcast`, and `ResearchState` declares no company field. The model also admits `research_approach`, `company_name` and `title_areas`, so the company path and the company file-name segment are reachable only through this widening.
- LeadUtils.ParseGeminiJsonResponse: the parser model decodes the corrected fence slice (`LeadUtils.FenceBody`), not the slice as written. A fenced block that the program as written hands to the decoder with a leading "n", and so fails to decode, decodes in the model. This carries over to `LeadUtils.JsonText`, `LeadUtils.ScanParts`, `LeadUtils.ParseSpec`, `LeadNodes.SearchLeads` and the lemmas about them. The as-written slice and its failing input are under Findings.
- `wave_file`, the `__main__` blocks and the helpers imported from modules outside the core are not part of this model (the lead and CSE helpers of the research agent are collaborator outcomes).

## Findings

| source | as written | input that shows it | evidently intended | confidence | as-written member | corrected member |
|---|---|---|---|---|---|---|
| src/lead_agent/utils.py:52-57 | the fenced block is sliced from 6 characters past the start of the 7-character json fence tag (three backquotes, then "json") | the response text made of the json fence tag, "[]" and a closing fence of three backquotes is handed to the decoder as "n[]", which does not decode | slice from past the whole tag, so the decoder gets "[]" | not executed | LeadUtils.FenceBodyAsWritten | LeadUtils.FenceBody |

The as-written slice is `LeadUtils.FenceBodyAsWritten`. `LeadUtils.FenceAsWrittenKeepsTagLetter` proves that every block it extracts starts with "n". `LeadUtils.FenceOffsetDiscrepancy` exhibits the input above.

The corrected slice is `LeadUtils.FenceBody`. `LeadUtils.FenceBodies` proves that it extracts exactly the stripped block. The parser model (`LeadUtils.JsonText`) uses the corrected slice.

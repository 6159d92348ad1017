/** The steps of the research workflow. Each step reads the state and returns
    the partial update it contributes, or the exception that escapes it. The
    model, search, storage and contact-search calls are collaborator outcomes
    handed in through `Services`. */
module ResearchNodes {
  import opened Wrappers
  import opened Values
  import opened Text
  import opened AgentUtils

  /** The fields of the research state. */
  datatype Key =
    | Topic | ResearchApproach | CompanyName | TitleAreas | VideoUrl | CreatePodcastFlag
    | SearchText | SearchSourcesText
    | CompanySpecificTopicResearchText | CompanyInfoText
    | IdentifiedLeadsData | IdentifiedLeads | LinkedinCseContacts
    | VideoText | SynthesisText | Report | PodcastScript | PodcastUrl

  type State = map<Key, Value>

  datatype Node =
    | SearchResearch | CompanyTopicResearch | IdentifyLeads | SearchLinkedinViaCse
    | AnalyzeVideo | CreateReport | CreatePodcast

  /** The value of `research_approach` that selects the company path. */
  const CompanyMode: string := "Topic Company Leads"

  const CompanyRequired: string := "Error: Company name required."
  const NoVideo: string := "No video provided for analysis."
  const CompanyInfoMarker: string := "General Company Information:"

  /** What the report collaborator is handed. */
  datatype ReportRequest = ReportRequest(
    topic: Value, approach: Value, searchText: Value, videoText: Value,
    sourcesText: Value, videoUrl: Value, companyName: Value,
    companyTopicText: Value, companyInfoText: Value, leadsData: Value)

  /** What the podcast script call is handed. */
  datatype PodcastRequest = PodcastRequest(
    topic: Value, researchText: Value, videoText: Value, sourcesText: Value, videoUrl: Value)

  /** The collaborators: each call's outcome as a function of what it is given,
      and the environment settings the steps read. */
  datatype Services = Services(
    search: Value -> Outcome<Candidate>,
    companyResearch: (Value, Value) -> Outcome<Option<string>>,
    leads: (Value, Value, Value) -> Outcome<seq<Value>>,
    cseApiKey: Option<string>,
    cseId: Option<string>,
    cseContacts: (Value, Value, string, string, nat) -> Outcome<seq<Value>>,
    video: (Value, Value) -> Outcome<Candidate>,
    report: ReportRequest -> Outcome<(Value, Value)>,
    podcastScript: PodcastRequest -> Outcome<string>,
    podcastAudio: (string, string) -> Outcome<()>,
    gcsBucket: Option<string>,
    podcastUpload: (string, string) -> Outcome<string>)

  /** The fields each step writes. */
  function WriteSet(n: Node): set<Key> {
    match n
    case SearchResearch => {SearchText, SearchSourcesText}
    case CompanyTopicResearch => {CompanySpecificTopicResearchText, CompanyInfoText}
    case IdentifyLeads => {IdentifiedLeadsData, IdentifiedLeads}
    case SearchLinkedinViaCse => {LinkedinCseContacts}
    case AnalyzeVideo => {VideoText}
    case CreateReport => {Report, SynthesisText}
    case CreatePodcast => {PodcastScript, PodcastUrl}
  }

  // ---------------------------------------------------------------------------
  // The company research split

  /** `marker` occurs in `text` at `i`, ignoring ASCII case. */
  predicate OccursCI(text: string, marker: string, i: int) {
    OccursAt(Lower(text), Lower(marker), i)
  }

  /** `i` is the first case-insensitive occurrence of `marker` in `text`. */
  predicate FirstOccursCI(text: string, marker: string, i: int) {
    OccursCI(text, marker, i) && forall j :: 0 <= j < i ==> !OccursCI(text, marker, j)
  }

  /** The stripped text before `i` and the stripped text after the `n`
      characters at `i`. */
  function Around(text: string, i: nat, n: nat): (string, string)
    requires i + n <= |text|
  {
    (Strip(text[..i]), Strip(text[i + n..]))
  }

  /** An index `find` returns leaves room for the marker. */
  lemma FoundFits(text: string, marker: string, i: int)
    requires Find(Lower(text), Lower(marker), 0) == i && i != -1
    ensures 0 <= i && i + |marker| <= |text|
  {
  }

  /** `text.lower().find(marker.lower())`, then the stripped text before that
      index and the stripped text after the marker; the whole text and ""
      when the marker does not occur. */
  function SplitAtMarker(text: string, marker: string): (string, string)
  {
    var idx := Find(Lower(text), Lower(marker), 0);
    if idx == -1 then (text, "")
    else
      FoundFits(text, marker, idx);
      Around(text, idx, |marker|)
  }

  /** The company research answer split into the company-specific topic
      research and the general company information. */
  function SplitCompanyResearch(text: string): (string, string)
  {
    SplitAtMarker(text, CompanyInfoMarker)
  }

  /** The case-insensitive search finds the first occurrence. */
  lemma FindsFirstOccurrence(text: string, marker: string, i: int)
    requires FirstOccursCI(text, marker, i)
    ensures Find(Lower(text), Lower(marker), 0) == i
  {
    assert OccursAt(Lower(text), Lower(marker), i);
    forall j | 0 <= j < i
      ensures !OccursAt(Lower(text), Lower(marker), j)
    {
      assert !OccursCI(text, marker, j);
    }
  }

  /** At the first occurrence of the marker, the split gives the stripped text
      before it and the stripped text after it. */
  lemma SplitAtFirstMarker(text: string, marker: string, i: int)
    requires FirstOccursCI(text, marker, i)
    ensures i + |marker| <= |text|
    ensures SplitAtMarker(text, marker) == (Strip(text[..i]), Strip(text[i + |marker|..]))
  {
    FindsFirstOccurrence(text, marker, i);
    FoundFits(text, marker, i);
  }

  /** Without the marker the whole text is kept and the second part is "". */
  lemma SplitWithoutMarker(text: string, marker: string)
    requires forall i :: !OccursCI(text, marker, i)
    ensures SplitAtMarker(text, marker) == (text, "")
  {
    forall j | 0 <= j
      ensures !OccursAt(Lower(text), Lower(marker), j)
    {
      assert !OccursCI(text, marker, j);
    }
  }

  /** No character other than ':' lowers to ':'. */
  lemma LowerColon(c: char)
    ensures LowerChar(c) == ':' <==> c == ':'
  {
  }

  /** A marker ending in its only ':' cannot occur where the character that
      would be that ':' is something else. */
  lemma NoOccurrenceWithoutColon(text: string, marker: string, i: int)
    requires marker != [] && marker[|marker| - 1] == ':'
    requires 0 <= i && i + |marker| <= |text|
    requires text[i + |marker| - 1] != ':'
    ensures !OccursCI(text, marker, i)
  {
    var p := i + |marker| - 1;
    LowerColon(text[p]);
    LowerColon(marker[|marker| - 1]);
    assert Lower(text)[i..i + |marker|][|marker| - 1] == Lower(text)[p];
  }

  /** Splitting `a + marker + b` gives back the stripped `a` and `b` when the
      marker's only ':' is its last character and `a` has none, so that no
      earlier occurrence can start inside `a`. */
  lemma {:induction false} SplitRoundTrip(a: string, marker: string, b: string)
    requires marker != [] && marker[|marker| - 1] == ':'
    requires forall k :: 0 <= k < |marker| - 1 ==> marker[k] != ':'
    requires ':' !in a
    ensures SplitAtMarker(a + marker + b, marker) == (Strip(a), Strip(b))
  {
    MarkerFoundAfterColonFree(a, marker, b);
    AroundParts(a, marker, b);
  }

  /** The search finds the marker right after a colon-free `a`. */
  lemma MarkerFoundAfterColonFree(a: string, marker: string, b: string)
    requires marker != [] && marker[|marker| - 1] == ':'
    requires forall k :: 0 <= k < |marker| - 1 ==> marker[k] != ':'
    requires ':' !in a
    ensures Find(Lower(a + marker + b), Lower(marker), 0) == |a|
  {
    MarkerFirstAfterColonFree(a, marker, b);
    FindsFirstOccurrence(a + marker + b, marker, |a|);
  }

  /** Around the marker in `a + marker + b` lie `a` and `b`. */
  lemma AroundParts(a: string, marker: string, b: string)
    ensures Around(a + marker + b, |a|, |marker|) == (Strip(a), Strip(b))
  {
    var t := a + marker + b;
    assert t[..|a|] == a;
    assert t[|a| + |marker|..] == b;
  }

  /** In `a + marker + b` the first occurrence of such a marker is right
      after `a`. */
  lemma MarkerFirstAfterColonFree(a: string, marker: string, b: string)
    requires marker != [] && marker[|marker| - 1] == ':'
    requires forall k :: 0 <= k < |marker| - 1 ==> marker[k] != ':'
    requires ':' !in a
    ensures FirstOccursCI(a + marker + b, marker, |a|)
  {
    var t := a + marker + b;
    var m := |marker|;
    LowerSlice(t, |a|, |a| + m);
    assert t[|a|..|a| + m] == marker;
    assert OccursCI(t, marker, |a|);
    forall j | 0 <= j < |a|
      ensures !OccursCI(t, marker, j)
    {
      var p := j + m - 1;
      if p < |a| {
        assert t[p] == a[p];
      } else {
        assert t[p] == marker[p - |a|];
      }
      NoOccurrenceWithoutColon(t, marker, j);
    }
  }

  /** Text with no ':' has no occurrence of such a marker. */
  lemma SplitWithoutColon(text: string, marker: string)
    requires marker != [] && marker[|marker| - 1] == ':'
    requires ':' !in text
    ensures SplitAtMarker(text, marker) == (text, "")
  {
    forall i | 0 <= i && i + |marker| <= |text|
      ensures !OccursCI(text, marker, i)
    {
      NoOccurrenceWithoutColon(text, marker, i);
    }
    SplitWithoutMarker(text, marker);
  }

  lemma CompanyMarkerShape()
    ensures CompanyInfoMarker != [] && CompanyInfoMarker[|CompanyInfoMarker| - 1] == ':'
    ensures forall k :: 0 <= k < |CompanyInfoMarker| - 1 ==> CompanyInfoMarker[k] != ':'
  {
    assert CompanyInfoMarker[..|CompanyInfoMarker| - 1] == "General Company Information";
    assert ':' !in "General Company Information";
    forall k | 0 <= k < |CompanyInfoMarker| - 1
      ensures CompanyInfoMarker[k] != ':'
    {
      assert CompanyInfoMarker[k] == CompanyInfoMarker[..|CompanyInfoMarker| - 1][k];
    }
  }

  /** The company research split undoes composing its two sections around
      the marker, when the first section has no ':'. */
  lemma SplitCompanyResearchRoundTrip(specific: string, general: string)
    requires ':' !in specific
    ensures SplitCompanyResearch(specific + CompanyInfoMarker + general) == (Strip(specific), Strip(general))
  {
    CompanyMarkerShape();
    SplitRoundTrip(specific, CompanyInfoMarker, general);
  }

  /** An answer with no ':' is kept whole as the company-specific research. */
  lemma SplitCompanyResearchNoMarker(text: string)
    requires ':' !in text
    ensures SplitCompanyResearch(text) == (text, "")
  {
    CompanyMarkerShape();
    SplitWithoutColon(text, CompanyInfoMarker);
  }

  // ---------------------------------------------------------------------------
  // The podcast inputs

  /** The research text the podcast script is written from: in company mode the
      company topic research, or else the general company information; in topic
      mode the web research; when that is empty, the synthesis. */
  function PodcastResearchText(approach: Value, s: State): (r: Value)
    ensures approach == Str(CompanyMode) && Truthy(GetOr(s, CompanySpecificTopicResearchText, Str(""))) ==>
              r == s[CompanySpecificTopicResearchText]
    ensures approach == Str(CompanyMode) && !Truthy(GetOr(s, CompanySpecificTopicResearchText, Str("")))
            && Truthy(GetOr(s, CompanyInfoText, Str(""))) ==>
              r == s[CompanyInfoText]
    ensures approach != Str(CompanyMode) && Truthy(GetOr(s, SearchText, Str(""))) ==> r == s[SearchText]
    ensures Truthy(r) <==>
              (if approach == Str(CompanyMode)
               then Truthy(GetOr(s, CompanySpecificTopicResearchText, Str("")))
                    || Truthy(GetOr(s, CompanyInfoText, Str("")))
               else Truthy(GetOr(s, SearchText, Str(""))))
              || Truthy(Get(s, SynthesisText))
    ensures ((if approach == Str(CompanyMode)
              then !Truthy(GetOr(s, CompanySpecificTopicResearchText, Str("")))
                   && !Truthy(GetOr(s, CompanyInfoText, Str("")))
              else !Truthy(GetOr(s, SearchText, Str("")))) && Truthy(Get(s, SynthesisText)))
            ==> r == s[SynthesisText]
    ensures !Truthy(r) ==> r == if approach == Str(CompanyMode)
                                then GetOr(s, CompanyInfoText, Str(""))
                                else GetOr(s, SearchText, Str(""))
  {
    var primary :=
      if approach == Str(CompanyMode)
      then Or(GetOr(s, CompanySpecificTopicResearchText, Str("")), GetOr(s, CompanyInfoText, Str("")))
      else GetOr(s, SearchText, Str(""));
    if !Truthy(primary) && Truthy(Get(s, SynthesisText))
    then GetOr(s, SynthesisText, Str("No detailed research text available for podcast."))
    else primary
  }

  /** The "_company" part of the podcast file name: present only in company
      mode with a truthy company name that sanitises to something non-empty;
      a truthy company value that cannot be sanitised raises. */
  function CompanySegment(approach: Value, company: Value): (r: Outcome<string>)
    ensures r.Raise? <==> approach == Str(CompanyMode) && Truthy(company) && Sanitize(company).Raise?
    ensures r.Ok? ==> (r.value != [] <==> approach == Str(CompanyMode) && Truthy(company) && Sanitize(company).value != [])
    ensures r.Ok? && r.value != [] ==>
              r.value[0] == '_' && r.value[1..] == Sanitize(company).value
              && forall i :: 1 <= i < |r.value| ==> IsAlnum(r.value[i]) || r.value[i] == '-' || r.value[i] == '_'
  {
    if approach == Str(CompanyMode) && Truthy(company) then
      match Sanitize(company)
      case Raise(e) => Raise(e)
      case Ok(safe) =>
        var seg := if safe != [] then "_" + safe else "";
        assert safe != [] ==> seg[1..] == safe;
        Ok(seg)
    else Ok("")
  }

  /** The podcast file name built from the sanitised topic and the company
      segment. */
  function PodcastFilename(safeTopic: string, segment: string): string {
    "research_podcast_" + safeTopic + segment + ".wav"
  }

  /** The podcast's file name for a state, or the exception that sanitising the
      topic or the company name raises; the topic is sanitised first. */
  function PodcastFilenameOf(s: State): (r: Outcome<string>)
    requires Topic in s && ResearchApproach in s
    ensures r.Ok? <==> Sanitize(s[Topic]).Ok? && CompanySegment(s[ResearchApproach], Get(s, CompanyName)).Ok?
    ensures Sanitize(s[Topic]).Raise? ==> r == Raise(Sanitize(s[Topic]).error)
    ensures r.Ok? ==> r.value == PodcastFilename(Sanitize(s[Topic]).value, CompanySegment(s[ResearchApproach], Get(s, CompanyName)).value)
  {
    match Sanitize(s[Topic])
    case Raise(e) => Raise(e)
    case Ok(safe) =>
      match CompanySegment(s[ResearchApproach], Get(s, CompanyName))
      case Raise(e) => Raise(e)
      case Ok(segment) => Ok(PodcastFilename(safe, segment))
  }

  /** Whenever the podcast file name can be built, it is "research_podcast_",
      then alphanumerics, '-' and '_' only, then ".wav". */
  lemma PodcastFilenameShape(s: State)
    requires Topic in s && ResearchApproach in s
    ensures PodcastFilenameOf(s).Ok? ==>
              var f := PodcastFilenameOf(s).value;
              |f| >= 21 && f[..17] == "research_podcast_" && f[|f| - 4..] == ".wav"
              && forall i :: 17 <= i < |f| - 4 ==> IsAlnum(f[i]) || f[i] == '-' || f[i] == '_'
  {
    if PodcastFilenameOf(s).Ok? {
      FilenameFraming(Sanitize(s[Topic]).value, CompanySegment(s[ResearchApproach], Get(s, CompanyName)).value);
    }
  }

  lemma FilenameFraming(safe: string, segment: string)
    requires forall i :: 0 <= i < |safe| ==> IsAlnum(safe[i]) || safe[i] == '-' || safe[i] == '_'
    requires segment == [] || (segment[0] == '_' && forall i :: 1 <= i < |segment| ==> IsAlnum(segment[i]) || segment[i] == '-' || segment[i] == '_')
    ensures var f := PodcastFilename(safe, segment);
            |f| >= 21 && f[..17] == "research_podcast_" && f[|f| - 4..] == ".wav"
            && forall i :: 17 <= i < |f| - 4 ==> IsAlnum(f[i]) || f[i] == '-' || f[i] == '_'
  {
    NameCharsJoin(safe, segment);
    FramedNameChars("research_podcast_", safe + segment, ".wav");
    assert PodcastFilename(safe, segment) == "research_podcast_" + (safe + segment) + ".wav";
  }

  /** Two name-safe strings join into a name-safe string. */
  lemma NameCharsJoin(a: string, b: string)
    requires forall i :: 0 <= i < |a| ==> IsAlnum(a[i]) || a[i] == '-' || a[i] == '_'
    requires b == [] || (b[0] == '_' && forall i :: 1 <= i < |b| ==> IsAlnum(b[i]) || b[i] == '-' || b[i] == '_')
    ensures forall i :: 0 <= i < |a + b| ==> IsAlnum((a + b)[i]) || (a + b)[i] == '-' || (a + b)[i] == '_'
  {
    forall i | 0 <= i < |a + b|
      ensures IsAlnum((a + b)[i]) || (a + b)[i] == '-' || (a + b)[i] == '_'
    {
      if i < |a| {
        assert (a + b)[i] == a[i];
      } else {
        assert (a + b)[i] == b[i - |a|];
      }
    }
  }

  /** A name-safe middle stays name-safe between a prefix and a suffix. */
  lemma FramedNameChars(p: string, m: string, x: string)
    requires forall i :: 0 <= i < |m| ==> IsAlnum(m[i]) || m[i] == '-' || m[i] == '_'
    ensures var f := p + m + x;
            |f| == |p| + |m| + |x| && f[..|p|] == p && f[|f| - |x|..] == x
            && forall i :: |p| <= i < |f| - |x| ==> IsAlnum(f[i]) || f[i] == '-' || f[i] == '_'
  {
    var f := p + m + x;
    assert f[..|p|] == p;
    assert f[|f| - |x|..] == x;
    forall i | |p| <= i < |f| - |x|
      ensures IsAlnum(f[i]) || f[i] == '-' || f[i] == '_'
    {
      assert f[i] == m[i - |p|];
    }
  }

  // ---------------------------------------------------------------------------
  // The steps

  function KeyError(name: string): string {
    "KeyError: '" + name + "'"
  }

  /** Web research on the topic: the answer text and its sources text. */
  function SearchResearchNode(s: State, sv: Services): (r: Outcome<State>)
    ensures r.Ok? <==> Topic in s && sv.search(s[Topic]).Ok?
    ensures r.Ok? ==> r.value.Keys == WriteSet(SearchResearch)
                      && r.value[SearchText] == Str(sv.search(s[Topic]).value.text)
                      && r.value[SearchSourcesText] == Str(SourcesText(sv.search(s[Topic]).value))
  {
    if Topic !in s then Raise(KeyError("topic"))
    else
      match sv.search(s[Topic])
      case Raise(e) => Raise(e)
      case Ok(answer) =>
        var (text, sources) := DisplayGeminiResponse(answer);
        Ok(map[SearchText := Str(text), SearchSourcesText := Str(sources)])
  }

  /** Company research: without a company name both fields carry the error
      text and nothing is called; otherwise the answer is split at the marker. */
  function CompanyTopicResearchNode(s: State, sv: Services): (r: Outcome<State>)
    ensures Topic !in s ==> r.Raise?
    ensures Topic in s && !Truthy(Get(s, CompanyName)) ==>
              r == Ok(map[CompanySpecificTopicResearchText := Str(CompanyRequired),
                          CompanyInfoText := Str(CompanyRequired)])
    ensures Topic in s && Truthy(Get(s, CompanyName)) ==>
              (r.Ok? <==> sv.companyResearch(s[Topic], s[CompanyName]).Ok?)
    ensures r.Ok? ==> r.value.Keys == WriteSet(CompanyTopicResearch)
    ensures r.Ok? && Truthy(Get(s, CompanyName)) ==>
              var answer := sv.companyResearch(s[Topic], s[CompanyName]).value;
              var text := if answer.Some? then answer.value else "";
              r.value[CompanySpecificTopicResearchText] == Str(SplitCompanyResearch(text).0)
              && r.value[CompanyInfoText] == Str(SplitCompanyResearch(text).1)
  {
    if Topic !in s then Raise(KeyError("topic"))
    else if !Truthy(Get(s, CompanyName)) then
      Ok(map[CompanySpecificTopicResearchText := Str(CompanyRequired), CompanyInfoText := Str(CompanyRequired)])
    else
      match sv.companyResearch(s[Topic], s[CompanyName])
      case Raise(e) => Raise(e)
      case Ok(answer) =>
        var text := if answer.Some? then answer.value else "";
        var (specific, general) := SplitCompanyResearch(text);
        Ok(map[CompanySpecificTopicResearchText := Str(specific), CompanyInfoText := Str(general)])
  }

  /** Lead identification: without a company name or title areas both lead
      fields are empty lists and nothing is called; otherwise both hold the
      leads found. */
  function IdentifyLeadsNode(s: State, sv: Services): (r: Outcome<State>)
    ensures !Truthy(Get(s, CompanyName)) || !Truthy(Get(s, TitleAreas)) ==>
              r == Ok(map[IdentifiedLeadsData := List([]), IdentifiedLeads := List([])])
    ensures r.Ok? ==> r.value.Keys == WriteSet(IdentifyLeads)
                      && r.value[IdentifiedLeadsData] == r.value[IdentifiedLeads]
    ensures Truthy(Get(s, CompanyName)) && Truthy(Get(s, TitleAreas)) ==>
              var found := sv.leads(s[CompanyName], s[TitleAreas],
                                    GetOr(s, CompanySpecificTopicResearchText, Str("")));
              (r.Ok? <==> found.Ok?) && (r.Ok? ==> r.value[IdentifiedLeads] == List(found.value))
  {
    if !Truthy(Get(s, CompanyName)) || !Truthy(Get(s, TitleAreas)) then
      Ok(map[IdentifiedLeadsData := List([]), IdentifiedLeads := List([])])
    else
      match sv.leads(s[CompanyName], s[TitleAreas], GetOr(s, CompanySpecificTopicResearchText, Str("")))
      case Raise(e) => Raise(e)
      case Ok(leads) => Ok(map[IdentifiedLeadsData := List(leads), IdentifiedLeads := List(leads)])
  }

  /** Number of contacts the contact search asks for. */
  const CseResultCount: nat := 10

  /** Contact search: without a company name, title areas, or either search
      credential the contact list is empty and nothing is called. */
  function SearchLinkedinViaCseNode(s: State, sv: Services): (r: Outcome<State>)
    ensures !Truthy(Get(s, CompanyName)) || !Truthy(Get(s, TitleAreas))
            || !IsSet(sv.cseApiKey) || !IsSet(sv.cseId) ==>
              r == Ok(map[LinkedinCseContacts := List([])])
    ensures r.Ok? ==> r.value.Keys == WriteSet(SearchLinkedinViaCse)
    ensures Truthy(Get(s, CompanyName)) && Truthy(Get(s, TitleAreas)) && IsSet(sv.cseApiKey) && IsSet(sv.cseId) ==>
              var found := sv.cseContacts(s[CompanyName], s[TitleAreas], sv.cseApiKey.value, sv.cseId.value, CseResultCount);
              (r.Ok? <==> found.Ok?) && (r.Ok? ==> r.value[LinkedinCseContacts] == List(found.value))
  {
    if !Truthy(Get(s, CompanyName)) || !Truthy(Get(s, TitleAreas)) then
      Ok(map[LinkedinCseContacts := List([])])
    else if !IsSet(sv.cseApiKey) || !IsSet(sv.cseId) then
      Ok(map[LinkedinCseContacts := List([])])
    else
      match sv.cseContacts(s[CompanyName], s[TitleAreas], sv.cseApiKey.value, sv.cseId.value, CseResultCount)
      case Raise(e) => Raise(e)
      case Ok(contacts) => Ok(map[LinkedinCseContacts := List(contacts)])
  }

  /** Video analysis: the topic is read first (so its absence raises even
      without a video); without a video URL the fixed text is written. */
  function AnalyzeVideoNode(s: State, sv: Services): (r: Outcome<State>)
    ensures Topic !in s ==> r.Raise?
    ensures Topic in s && !Truthy(Get(s, VideoUrl)) ==> r == Ok(map[VideoText := Str(NoVideo)])
    ensures r.Ok? ==> r.value.Keys == WriteSet(AnalyzeVideo)
    ensures Topic in s && Truthy(Get(s, VideoUrl)) ==>
              var answer := sv.video(s[VideoUrl], s[Topic]);
              (r.Ok? <==> answer.Ok?) && (r.Ok? ==> r.value[VideoText] == Str(answer.value.text))
  {
    if Topic !in s then Raise(KeyError("topic"))
    else if !Truthy(Get(s, VideoUrl)) then Ok(map[VideoText := Str(NoVideo)])
    else
      match sv.video(s[VideoUrl], s[Topic])
      case Raise(e) => Raise(e)
      case Ok(answer) =>
        var (text, _) := DisplayGeminiResponse(answer);
        Ok(map[VideoText := Str(text)])
  }

  /** What the report step hands its collaborator, read from the state. */
  function ReportRequestOf(s: State): (q: ReportRequest)
    requires Topic in s && ResearchApproach in s
    ensures q.topic == s[Topic] && q.approach == s[ResearchApproach]
    ensures q.companyTopicText == Get(s, CompanySpecificTopicResearchText)
    ensures q.leadsData == Get(s, IdentifiedLeadsData)
  {
    ReportRequest(s[Topic], s[ResearchApproach], Get(s, SearchText), Get(s, VideoText),
                  Get(s, SearchSourcesText), Get(s, VideoUrl), Get(s, CompanyName),
                  Get(s, CompanySpecificTopicResearchText), Get(s, CompanyInfoText),
                  Get(s, IdentifiedLeadsData))
  }

  /** Report step: `topic` and `research_approach` must be present; the
      report collaborator returns (report URL or text, synthesis). */
  function CreateReportNode(s: State, sv: Services): (r: Outcome<State>)
    ensures r.Ok? <==> Topic in s && ResearchApproach in s && sv.report(ReportRequestOf(s)).Ok?
    ensures r.Ok? ==> r.value.Keys == WriteSet(CreateReport)
                      && r.value[Report] == sv.report(ReportRequestOf(s)).value.0
                      && r.value[SynthesisText] == sv.report(ReportRequestOf(s)).value.1
  {
    if Topic !in s then Raise(KeyError("topic"))
    else if ResearchApproach !in s then Raise(KeyError("research_approach"))
    else
      match sv.report(ReportRequestOf(s))
      case Raise(e) => Raise(e)
      case Ok((report, synthesis)) => Ok(map[Report := report, SynthesisText := synthesis])
  }

  function PodcastRequestOf(s: State): PodcastRequest
    requires Topic in s && ResearchApproach in s
  {
    PodcastRequest(s[Topic], PodcastResearchText(s[ResearchApproach], s),
                   GetOr(s, VideoText, Str("")), GetOr(s, SearchSourcesText, Str("")),
                   GetOr(s, VideoUrl, Str("")))
  }

  /** The podcast collaborators' combined outcome for a state and file name. */
  function PodcastOutcome(s: State, sv: Services, filename: string): Outcome<(string, Option<string>)>
    requires Topic in s && ResearchApproach in s
  {
    var script := sv.podcastScript(PodcastRequestOf(s));
    var audio := if script.Ok? then sv.podcastAudio(script.value, filename) else Ok(());
    CreatePodcastDiscussion(filename, script, audio, sv.gcsBucket, sv.podcastUpload)
  }

  /** Podcast step: the script is always written; the URL is None unless the
      upload succeeded. */
  function CreatePodcastNode(s: State, sv: Services): (r: Outcome<State>)
    ensures r.Ok? <==> Topic in s && ResearchApproach in s && PodcastFilenameOf(s).Ok?
                       && PodcastOutcome(s, sv, PodcastFilenameOf(s).value).Ok?
    ensures r.Ok? ==>
              var out := PodcastOutcome(s, sv, PodcastFilenameOf(s).value).value;
              r.value.Keys == WriteSet(CreatePodcast)
              && r.value[PodcastScript] == Str(out.0)
              && (r.value[PodcastUrl] == Null <==> out.1.None?)
              && (out.1.Some? ==> r.value[PodcastUrl] == Str(out.1.value))
  {
    if Topic !in s then Raise(KeyError("topic"))
    else if ResearchApproach !in s then Raise(KeyError("research_approach"))
    else
      match PodcastFilenameOf(s)
      case Raise(e) => Raise(e)
      case Ok(filename) =>
        match PodcastOutcome(s, sv, filename)
        case Raise(e) => Raise(e)
        case Ok((script, url)) =>
          Ok(map[PodcastScript := Str(script), PodcastUrl := if url.Some? then Str(url.value) else Null])
  }

  /** Dispatch to the step a node names. */
  function Execute(sv: Services, n: Node, s: State): (r: Outcome<State>)
    ensures r.Ok? ==> r.value.Keys == WriteSet(n)
  {
    match n
    case SearchResearch => SearchResearchNode(s, sv)
    case CompanyTopicResearch => CompanyTopicResearchNode(s, sv)
    case IdentifyLeads => IdentifyLeadsNode(s, sv)
    case SearchLinkedinViaCse => SearchLinkedinViaCseNode(s, sv)
    case AnalyzeVideo => AnalyzeVideoNode(s, sv)
    case CreateReport => CreateReportNode(s, sv)
    case CreatePodcast => CreatePodcastNode(s, sv)
  }
}

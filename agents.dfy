/** The multi-agent pipeline of kevin_agents.py: the shared `AgentState`
    record, the eight stage methods that update it in place, and
    `MasterOrchestratorAgent.process`, which builds the initial state and runs
    the stages in their fixed order.

    Everything outside the record is an input: the text the PDF/DOCX
    extractor returns, the reply each stage's LLM call returns, the clock
    reading each stage takes, and `json.loads` (a partial function: `None`
    where Python raises). */
module Agents {
  import opened Wrappers
  import opened PyStrings
  import opened JsonValues
  import opened Fences
  import opened StructureParser

  /** The clock readings a stage takes: its `str()` for the log line and its
      `isoformat()` for the stamp. */
  datatype Clock = Clock(display: string, iso: string)

  /** `{"analysis" | "description" | "code": text, "timestamp": iso}`. */
  datatype Stamped = Stamped(text: string, timestamp: string)

  /** The eight graph nodes, in the order the edges chain them. */
  datatype Stage =
    | SopAnalysis | ProcessMapping | GapIdentification | AutomationOpportunity
    | FutureStateDesign | TestCaseGeneration | CodeGeneration | KpiCalculation

  const StageOrder: seq<Stage> := [SopAnalysis, ProcessMapping, GapIdentification, AutomationOpportunity,
                                   FutureStateDesign, TestCaseGeneration, CodeGeneration, KpiCalculation]

  /** The node names of the graph. */
  function NodeName(st: Stage): string {
    match st
    case SopAnalysis => "sop_analysis"
    case ProcessMapping => "process_mapping"
    case GapIdentification => "gap_identification"
    case AutomationOpportunity => "automation_opportunity"
    case FutureStateDesign => "future_state_design"
    case TestCaseGeneration => "test_case_generation"
    case CodeGeneration => "code_generation"
    case KpiCalculation => "kpi_calculation"
  }

  /** How every log line a stage writes begins. */
  function LogPrefix(st: Stage): string {
    match st
    case SopAnalysis => "SOP Analysis Agent"
    case ProcessMapping => "Process Mapping Agent"
    case GapIdentification => "Gap Identification"
    case AutomationOpportunity => "Automation Opportunity Agent"
    case FutureStateDesign => "Future State Design Agent"
    case TestCaseGeneration => "Test Case Generator Agent"
    case CodeGeneration => "Code Generator Agent"
    case KpiCalculation => "KPI/SLA Calculator Agent"
  }

  /** `f"{agent} completed at {datetime.now()}"`. */
  function CompletedLog(st: Stage, clock: Clock): string {
    LogPrefix(st) + CompletedWords(st) + clock.display
  }

  /** The gap stage's completion line alone says "Agent" after its prefix. */
  function CompletedWords(st: Stage): string {
    if st == GapIdentification then " Agent completed at " else " completed at "
  }

  /** "Gap Identification skipped - no diagram provided". */
  const GapSkippedLog: string := LogPrefix(GapIdentification) + " skipped - no diagram provided"

  const SopParseError: string := "Failed to parse LLM response for SOP analysis"
  const OpportunitiesParseError: string := "Failed to parse automation opportunities"
  const TestCasesParseError: string := "Failed to parse test cases"
  const KpiParseError: string := "Failed to parse KPI analysis"

  /** The error a stage appends when its reply does not parse (only the
      four JSON-consuming stages have one). */
  function ParseError(st: Stage): Option<string> {
    match st
    case SopAnalysis => Some(SopParseError)
    case AutomationOpportunity => Some(OpportunitiesParseError)
    case TestCaseGeneration => Some(TestCasesParseError)
    case KpiCalculation => Some(KpiParseError)
    case _ => None
  }

  /** What the gap stage records for an image diagram. */
  const ImageDiagramContent: Json := JObj([("type", JStr("image")), ("analysis", JStr("Not implemented in MVP"))])

  /** The values of the `AgentState` fields. `sopStructure`,
      `futureStateArchitecture` and `generatedCode` start as `{}`, written
      here as `None`; `gapAnalysis` and `diagramContent` start as Python's `None`. */
  datatype Snapshot = Snapshot(
    sopDocumentPath: string,
    processDiagramPath: Option<string>,
    domain: string,
    sopText: string,
    sopStructure: Option<Structure>,
    diagramContent: Option<Json>,
    currentStateMap: string,
    currentStateSteps: seq<Json>,
    gapAnalysis: Option<Stamped>,
    automationOpportunities: Json,
    futureStateMap: string,
    futureStateArchitecture: Option<Stamped>,
    requirements: Json,
    testCases: Json,
    generatedCode: Option<Stamped>,
    kpiAnalysis: Json,
    sessionId: string,
    timestamp: string,
    agentLogs: seq<string>,
    errors: seq<string>)

  /** The state `process` builds before the first stage runs. */
  function InitialState(sopPath: string, diagramPath: Option<string>, domain: string, sessionId: string, timestamp: string): (s: Snapshot)
    ensures s.sopDocumentPath == sopPath && s.processDiagramPath == diagramPath && s.domain == domain
    ensures s.sopText == [] && s.sopStructure.None? && s.diagramContent.None?
    ensures s.currentStateMap == [] && s.currentStateSteps == [] && s.gapAnalysis.None?
    ensures s.automationOpportunities == JArr([]) && s.futureStateMap == [] && s.futureStateArchitecture.None?
    ensures s.requirements == JObj([]) && s.testCases == JArr([]) && s.generatedCode.None? && s.kpiAnalysis == JObj([])
    ensures s.agentLogs == [] && s.errors == []
  {
    Snapshot(sopPath, diagramPath, domain, "", None, None, "", [], None, JArr([]), "", None,
             JObj([]), JArr([]), None, JObj([]), sessionId, timestamp, [], [])
  }

  // ---------------------------------------------------------------------
  // The stages as functions of the state before them
  // ---------------------------------------------------------------------

  /** `json.loads` applied to the extracted block of a reply. */
  function ParseReply(reply: string, parse: string -> Option<Json>): Option<Json> {
    parse(ExtractJson(reply))
  }

  predicate SupportedDocument(path: string) {
    EndsWith(path, ".pdf") || EndsWith(path, ".docx")
  }

  /** `SOPAnalysisAgent.analyze` (kevin_agents.py:247-298). */
  /** `structure` is what `parse_structure` makes of `documentText`, `parsed`
      what `json.loads` makes of the reply. */
  function AnalyzeStage(s: Snapshot, documentText: string, structure: Structure, parsed: Option<Json>, clock: Clock)
    : Result<Snapshot, string>
  {
    if !SupportedDocument(s.sopDocumentPath) then
      Failure("Unsupported file format: " + s.sopDocumentPath)
    else
      Success(Analyzed(s, documentText, structure, parsed, clock))
  }

  /** The state after the SOP stage once the file type is accepted. */
  function Analyzed(s: Snapshot, documentText: string, structure: Structure, parsed: Option<Json>, clock: Clock): Snapshot {
    s.(sopText := documentText,
       sopStructure := Some(if parsed.Some? then structure.(detailedAnalysis := parsed) else structure),
       errors := if parsed.None? then s.errors + [SopParseError] else s.errors,
       agentLogs := s.agentLogs + [CompletedLog(SopAnalysis, clock)])
  }

  /** The SOP stage fails exactly on an unsupported file type, and then
      with the `ValueError` message; otherwise it sets `sop_text` and
      `sop_structure`, whose `detailed_analysis` is there exactly when the
      reply parses, appends one error exactly when it does not, appends one
      log line, and changes nothing else. */
  lemma AnalyzeStageSpec(s: Snapshot, documentText: string, parsed: Option<Json>, clock: Clock)
    ensures var r := AnalyzeStage(s, documentText, StructureOf(documentText), parsed, clock);
            && (r.Failure? <==> !SupportedDocument(s.sopDocumentPath))
            && (r.Failure? ==> r.error == "Unsupported file format: " + s.sopDocumentPath)
            && (r.Success? ==>
              && r.value.sopText == documentText
              && r.value.sopStructure.Some?
              && r.value.sopStructure.value.(detailedAnalysis := None) == StructureOf(documentText)
              && r.value.sopStructure.value.detailedAnalysis == parsed
              && r.value.errors == s.errors + (if parsed.None? then [SopParseError] else [])
              && r.value.agentLogs == s.agentLogs + [CompletedLog(SopAnalysis, clock)]
              && r.value.(sopText := s.sopText, sopStructure := s.sopStructure, errors := s.errors, agentLogs := s.agentLogs) == s)
  {
  }

  /** `ProcessMappingAgent.map_process` (kevin_agents.py:310-360); `mermaid` is
      what the mermaid extractor makes of the reply. */
  function MapStage(s: Snapshot, mermaid: string, clock: Clock): Snapshot {
    s.(currentStateMap := mermaid, agentLogs := s.agentLogs + [CompletedLog(ProcessMapping, clock)])
  }

  /** Python's `not state.get("process_diagram_path")`. */
  predicate NoDiagram(path: Option<string>) {
    path.None? || path.value == []
  }

  predicate IsImagePath(path: string) {
    EndsWith(path, ".png") || EndsWith(path, ".jpg") || EndsWith(path, ".jpeg")
  }

  /** `GapIdentificationAgent.identify_gaps` (kevin_agents.py:372-416). */
  function GapStage(s: Snapshot, reply: string, clock: Clock): Snapshot {
    if NoDiagram(s.processDiagramPath) then
      s.(gapAnalysis := None, agentLogs := s.agentLogs + [GapSkippedLog])
    else
      s.(diagramContent := if IsImagePath(s.processDiagramPath.value) then Some(ImageDiagramContent) else s.diagramContent,
         gapAnalysis := Some(Stamped(reply, clock.iso)),
         agentLogs := s.agentLogs + [CompletedLog(GapIdentification, clock)])
  }

  /** `AutomationOpportunityAgent.identify_opportunities` (kevin_agents.py:428-481). */
  function OpportunityStage(s: Snapshot, parsed: Option<Json>, clock: Clock): Snapshot {
    s.(automationOpportunities := parsed.GetOr(JArr([])),
       errors := s.errors + (if parsed.None? then [OpportunitiesParseError] else []),
       agentLogs := s.agentLogs + [CompletedLog(AutomationOpportunity, clock)])
  }

  /** `FutureStateDesignAgent.design_future_state` (kevin_agents.py:493-552);
      `block` is the reply's ```mermaid block, if it has one. */
  function FutureStage(s: Snapshot, block: Option<string>, reply: string, clock: Clock): Snapshot {
    s.(futureStateMap := block.GetOr(s.currentStateMap),
       futureStateArchitecture := Some(Stamped(reply, clock.iso)),
       agentLogs := s.agentLogs + [CompletedLog(FutureStateDesign, clock)])
  }

  /** `TestCaseGeneratorAgent.generate_test_cases` (kevin_agents.py:564-620). */
  function TestCaseStage(s: Snapshot, parsed: Option<Json>, clock: Clock): Snapshot {
    s.(testCases := parsed.GetOr(JArr([])),
       errors := s.errors + (if parsed.None? then [TestCasesParseError] else []),
       agentLogs := s.agentLogs + [CompletedLog(TestCaseGeneration, clock)])
  }

  /** `CodeGeneratorAgent.generate_code` (kevin_agents.py:632-705). */
  function CodeStage(s: Snapshot, reply: string, clock: Clock): Snapshot {
    s.(generatedCode := Some(Stamped(reply, clock.iso)), agentLogs := s.agentLogs + [CompletedLog(CodeGeneration, clock)])
  }

  /** `KPISLACalculatorAgent.calculate_kpis` (kevin_agents.py:717-780). */
  function KpiStage(s: Snapshot, parsed: Option<Json>, clock: Clock): Snapshot {
    s.(kpiAnalysis := parsed.GetOr(JObj([])),
       errors := s.errors + (if parsed.None? then [KpiParseError] else []),
       agentLogs := s.agentLogs + [CompletedLog(KpiCalculation, clock)])
  }

  /** Without a diagram the gap stage records no analysis and logs that it
      was skipped; with one it records the reply and, for an image path, the
      placeholder diagram content. Either way it logs one line and changes
      nothing else. */
  lemma GapStageSpec(s: Snapshot, reply: string, clock: Clock)
    ensures var t := GapStage(s, reply, clock);
            && (NoDiagram(s.processDiagramPath) ==>
                  && t.gapAnalysis.None?
                  && t.agentLogs == s.agentLogs + [GapSkippedLog]
                  && t.(gapAnalysis := s.gapAnalysis, agentLogs := s.agentLogs) == s)
            && (!NoDiagram(s.processDiagramPath) ==>
                  && t.gapAnalysis == Some(Stamped(reply, clock.iso))
                  && t.diagramContent == (if IsImagePath(s.processDiagramPath.value) then Some(ImageDiagramContent) else s.diagramContent)
                  && t.agentLogs == s.agentLogs + [CompletedLog(GapIdentification, clock)]
                  && t.(diagramContent := s.diagramContent, gapAnalysis := s.gapAnalysis, agentLogs := s.agentLogs) == s)
  {
  }

  /** Each parsing stage stores the decoded reply, or its default (`[]`,
      `[]`, `{}`) when the reply does not decode; it appends one error
      exactly then, logs one line, and changes nothing else. */
  lemma ParsingStagesSpec(s: Snapshot, parsed: Option<Json>, clock: Clock)
    ensures var t := OpportunityStage(s, parsed, clock);
            && t.automationOpportunities == (if parsed.Some? then parsed.value else JArr([]))
            && t.errors == s.errors + (if parsed.None? then [OpportunitiesParseError] else [])
            && t.agentLogs == s.agentLogs + [CompletedLog(AutomationOpportunity, clock)]
            && t.(automationOpportunities := s.automationOpportunities, errors := s.errors, agentLogs := s.agentLogs) == s
    ensures var t := TestCaseStage(s, parsed, clock);
            && t.testCases == (if parsed.Some? then parsed.value else JArr([]))
            && t.errors == s.errors + (if parsed.None? then [TestCasesParseError] else [])
            && t.agentLogs == s.agentLogs + [CompletedLog(TestCaseGeneration, clock)]
            && t.(testCases := s.testCases, errors := s.errors, agentLogs := s.agentLogs) == s
    ensures var t := KpiStage(s, parsed, clock);
            && t.kpiAnalysis == (if parsed.Some? then parsed.value else JObj([]))
            && t.errors == s.errors + (if parsed.None? then [KpiParseError] else [])
            && t.agentLogs == s.agentLogs + [CompletedLog(KpiCalculation, clock)]
            && t.(kpiAnalysis := s.kpiAnalysis, errors := s.errors, agentLogs := s.agentLogs) == s
  {
  }

  /** The inputs of one run: the extracted document text and, per stage, the
      LLM reply and the clock reading; and the JSON decoder. */
  datatype Run = Run(
    documentText: string,
    reply: Stage -> string,
    clock: Stage -> Clock,
    parse: string -> Option<Json>)

  /** What `json.loads` makes of a stage's reply. */
  function Parsed(run: Run, st: Stage): Option<Json> {
    ParseReply(run.reply(st), run.parse)
  }

  /** What the stages take from the document and from their replies. */
  datatype Outcomes = Outcomes(
    structure: Structure,
    sopParsed: Option<Json>,
    currentMap: string,
    opportunitiesParsed: Option<Json>,
    futureBlock: Option<string>,
    testCasesParsed: Option<Json>,
    kpiParsed: Option<Json>)

  function OutcomesOf(run: Run): Outcomes {
    Outcomes(StructureOf(run.documentText), Parsed(run, SopAnalysis), CurrentStateMap(run.reply(ProcessMapping)),
             Parsed(run, AutomationOpportunity), FutureBlock(run.reply(FutureStateDesign)),
             Parsed(run, TestCaseGeneration), Parsed(run, KpiCalculation))
  }

  /** The seven stages after the SOP stage, along the graph's edges. */
  function LaterStages(s1: Snapshot, run: Run, o: Outcomes): Snapshot {
    var s2 := MapStage(s1, o.currentMap, run.clock(ProcessMapping));
    var s3 := GapStage(s2, run.reply(GapIdentification), run.clock(GapIdentification));
    var s4 := OpportunityStage(s3, o.opportunitiesParsed, run.clock(AutomationOpportunity));
    var s5 := FutureStage(s4, o.futureBlock, run.reply(FutureStateDesign), run.clock(FutureStateDesign));
    var s6 := TestCaseStage(s5, o.testCasesParsed, run.clock(TestCaseGeneration));
    var s7 := CodeStage(s6, run.reply(CodeGeneration), run.clock(CodeGeneration));
    KpiStage(s7, o.kpiParsed, run.clock(KpiCalculation))
  }

  /** The whole graph (kevin_agents.py:820-828): the SOP stage, which may
      raise, then the other seven. `o` is `OutcomesOf(run)` in a real run;
      the properties below hold for any outcomes. */
  function Pipeline(s: Snapshot, run: Run, o: Outcomes): Result<Snapshot, string> {
    match AnalyzeStage(s, run.documentText, o.structure, o.sopParsed, run.clock(SopAnalysis))
    case Failure(e) => Failure(e)
    case Success(s1) => Success(LaterStages(s1, run, o))
  }

  // ---------------------------------------------------------------------
  // The mutable state record and the stage methods
  // ---------------------------------------------------------------------

  /** The `AgentState` dict every stage mutates in place. */
  class AgentState {
    var sopDocumentPath: string
    var processDiagramPath: Option<string>
    var domain: string
    var sopText: string
    var sopStructure: Option<Structure>
    var diagramContent: Option<Json>
    var currentStateMap: string
    var currentStateSteps: seq<Json>
    var gapAnalysis: Option<Stamped>
    var automationOpportunities: Json
    var futureStateMap: string
    var futureStateArchitecture: Option<Stamped>
    var requirements: Json
    var testCases: Json
    var generatedCode: Option<Stamped>
    var kpiAnalysis: Json
    var sessionId: string
    var timestamp: string
    var agentLogs: seq<string>
    var errors: seq<string>

    function View(): Snapshot
      reads this
    {
      Snapshot(sopDocumentPath, processDiagramPath, domain, sopText, sopStructure, diagramContent,
               currentStateMap, currentStateSteps, gapAnalysis, automationOpportunities, futureStateMap,
               futureStateArchitecture, requirements, testCases, generatedCode, kpiAnalysis,
               sessionId, timestamp, agentLogs, errors)
    }

    /** The `initial_state` literal of `process` (kevin_agents.py:835-856). */
    constructor (sopPath: string, diagramPath: Option<string>, domainName: string, start: Clock, startId: string)
      ensures View() == InitialState(sopPath, diagramPath, domainName, startId, start.iso)
    {
      sopDocumentPath := sopPath;
      processDiagramPath := diagramPath;
      domain := domainName;
      sopText := "";
      sopStructure := None;
      diagramContent := None;
      currentStateMap := "";
      currentStateSteps := [];
      gapAnalysis := None;
      automationOpportunities := JArr([]);
      futureStateMap := "";
      futureStateArchitecture := None;
      requirements := JObj([]);
      testCases := JArr([]);
      generatedCode := None;
      kpiAnalysis := JObj([]);
      sessionId := startId;
      timestamp := start.iso;
      agentLogs := [];
      errors := [];
    }
  }

  /** `SOPAnalysisAgent.analyze`: raises on an unsupported file type before
      touching the state. */
  method Analyze(state: AgentState, documentText: string, reply: string, parse: string -> Option<Json>, clock: Clock)
    returns (failure: Option<string>)
    modifies state
    ensures var r := AnalyzeStage(old(state.View()), documentText, StructureOf(documentText), ParseReply(reply, parse), clock);
            && (r.Failure? ==> failure == Some(r.error) && state.View() == old(state.View()))
            && (r.Success? ==> failure.None? && state.View() == r.value)
  {
    var path := state.sopDocumentPath;
    if !(EndsWith(path, ".pdf") || EndsWith(path, ".docx")) {
      return Some("Unsupported file format: " + path);
    }
    var structure := ParseStructure(documentText);
    var parsed := ParseReply(reply, parse);
    RecordAnalysis(state, documentText, structure, parsed, clock);
    return None;
  }

  /** The state updates of `analyze` once the file type is accepted: the
      document text, the structure `parse_structure` found in it, and the
      outcome of `json.loads` on the reply (kevin_agents.py:260-261, 282-297). */
  method RecordAnalysis(state: AgentState, documentText: string, structure: Structure, parsed: Option<Json>, clock: Clock)
    modifies state
    ensures state.View() == Analyzed(old(state.View()), documentText, structure, parsed, clock)
  {
    state.sopText := documentText;
    state.sopStructure := Some(structure);
    if parsed.Some? {
      state.sopStructure := Some(structure.(detailedAnalysis := parsed));
    } else {
      state.errors := state.errors + [SopParseError];
    }
    state.agentLogs := state.agentLogs + [CompletedLog(SopAnalysis, clock)];
  }

  /** `ProcessMappingAgent.map_process`. */
  method MapProcess(state: AgentState, reply: string, clock: Clock)
    modifies state
    ensures state.View() == MapStage(old(state.View()), CurrentStateMap(reply), clock)
  {
    var mermaid := CurrentStateMap(reply);
    state.currentStateMap := mermaid;
    state.agentLogs := state.agentLogs + [CompletedLog(ProcessMapping, clock)];
  }

  /** `GapIdentificationAgent.identify_gaps`. */
  method IdentifyGaps(state: AgentState, reply: string, clock: Clock)
    modifies state
    ensures state.View() == GapStage(old(state.View()), reply, clock)
  {
    if state.processDiagramPath.None? || state.processDiagramPath.value == "" {
      state.gapAnalysis := None;
      state.agentLogs := state.agentLogs + [GapSkippedLog];
      return;
    }
    var diagramPath := state.processDiagramPath.value;
    if EndsWith(diagramPath, ".png") || EndsWith(diagramPath, ".jpg") || EndsWith(diagramPath, ".jpeg") {
      state.diagramContent := Some(ImageDiagramContent);
    }
    state.gapAnalysis := Some(Stamped(reply, clock.iso));
    state.agentLogs := state.agentLogs + [CompletedLog(GapIdentification, clock)];
  }

  /** `AutomationOpportunityAgent.identify_opportunities`. */
  method IdentifyOpportunities(state: AgentState, reply: string, parse: string -> Option<Json>, clock: Clock)
    modifies state
    ensures state.View() == OpportunityStage(old(state.View()), ParseReply(reply, parse), clock)
  {
    var parsed := ParseReply(reply, parse);
    if parsed.Some? {
      state.automationOpportunities := parsed.value;
    } else {
      state.errors := state.errors + [OpportunitiesParseError];
      state.automationOpportunities := JArr([]);
    }
    state.agentLogs := state.agentLogs + [CompletedLog(AutomationOpportunity, clock)];
  }

  /** `FutureStateDesignAgent.design_future_state`. */
  method DesignFutureState(state: AgentState, reply: string, clock: Clock)
    modifies state
    ensures state.View() == FutureStage(old(state.View()), FutureBlock(reply), reply, clock)
  {
    state.futureStateMap := FutureStateMap(reply, state.currentStateMap);
    state.futureStateArchitecture := Some(Stamped(reply, clock.iso));
    state.agentLogs := state.agentLogs + [CompletedLog(FutureStateDesign, clock)];
  }

  /** `TestCaseGeneratorAgent.generate_test_cases`. */
  method GenerateTestCases(state: AgentState, reply: string, parse: string -> Option<Json>, clock: Clock)
    modifies state
    ensures state.View() == TestCaseStage(old(state.View()), ParseReply(reply, parse), clock)
  {
    var parsed := ParseReply(reply, parse);
    if parsed.Some? {
      state.testCases := parsed.value;
    } else {
      state.errors := state.errors + [TestCasesParseError];
      state.testCases := JArr([]);
    }
    state.agentLogs := state.agentLogs + [CompletedLog(TestCaseGeneration, clock)];
  }

  /** `CodeGeneratorAgent.generate_code`. */
  method GenerateCode(state: AgentState, reply: string, clock: Clock)
    modifies state
    ensures state.View() == CodeStage(old(state.View()), reply, clock)
  {
    state.generatedCode := Some(Stamped(reply, clock.iso));
    state.agentLogs := state.agentLogs + [CompletedLog(CodeGeneration, clock)];
  }

  /** `KPISLACalculatorAgent.calculate_kpis`. */
  method CalculateKpis(state: AgentState, reply: string, parse: string -> Option<Json>, clock: Clock)
    modifies state
    ensures state.View() == KpiStage(old(state.View()), ParseReply(reply, parse), clock)
  {
    var parsed := ParseReply(reply, parse);
    if parsed.Some? {
      state.kpiAnalysis := parsed.value;
    } else {
      state.errors := state.errors + [KpiParseError];
      state.kpiAnalysis := JObj([]);
    }
    state.agentLogs := state.agentLogs + [CompletedLog(KpiCalculation, clock)];
  }

  /** `MasterOrchestratorAgent.process`: build the initial state, then run the
      eight nodes along the graph's edges. `start` is the clock reading
      taken for `timestamp`, `sessionId` its `%Y%m%d_%H%M%S` rendering. */
  method Process(sopPath: string, diagramPath: Option<string>, domain: string, start: Clock, sessionId: string, run: Run)
    returns (r: Result<AgentState, string>)
    ensures var expected := Pipeline(InitialState(sopPath, diagramPath, domain, sessionId, start.iso), run, OutcomesOf(run));
            && (expected.Failure? ==> r == Failure(expected.error))
            && (expected.Success? ==> r.Success? && fresh(r.value) && r.value.View() == expected.value)
  {
    var state := new AgentState(sopPath, diagramPath, domain, start, sessionId);
    var failure := Analyze(state, run.documentText, run.reply(SopAnalysis), run.parse, run.clock(SopAnalysis));
    if failure.Some? {
      return Failure(failure.value);
    }
    MapProcess(state, run.reply(ProcessMapping), run.clock(ProcessMapping));
    IdentifyGaps(state, run.reply(GapIdentification), run.clock(GapIdentification));
    IdentifyOpportunities(state, run.reply(AutomationOpportunity), run.parse, run.clock(AutomationOpportunity));
    DesignFutureState(state, run.reply(FutureStateDesign), run.clock(FutureStateDesign));
    GenerateTestCases(state, run.reply(TestCaseGeneration), run.parse, run.clock(TestCaseGeneration));
    GenerateCode(state, run.reply(CodeGeneration), run.clock(CodeGeneration));
    CalculateKpis(state, run.reply(KpiCalculation), run.parse, run.clock(KpiCalculation));
    return Success(state);
  }

  // ---------------------------------------------------------------------
  // Properties of a whole run
  // ---------------------------------------------------------------------

  /** The pipeline raises exactly when the SOP path ends in neither `.pdf`
      nor `.docx`, and then with the `ValueError` text. */
  lemma PipelineFails(s: Snapshot, run: Run, o: Outcomes)
    ensures Pipeline(s, run, o).Failure? <==> !SupportedDocument(s.sopDocumentPath)
    ensures Pipeline(s, run, o).Failure? ==> Pipeline(s, run, o).error == "Unsupported file format: " + s.sopDocumentPath
  {
  }

  /** Every stage appends exactly one log line, in graph order, each naming its stage. */
  lemma PipelineLogs(s: Snapshot, run: Run, o: Outcomes)
    requires Pipeline(s, run, o).Success?
    ensures var t := Pipeline(s, run, o).value;
            && t.agentLogs == s.agentLogs + StageLogs(s.processDiagramPath, run)
            && forall i :: 0 <= i < |StageOrder| ==> LogPrefix(StageOrder[i]) <= t.agentLogs[|s.agentLogs| + i]
  {
    var dp := s.processDiagramPath;
    var s1 := AnalyzeStage(s, run.documentText, o.structure, o.sopParsed, run.clock(SopAnalysis)).value;
    assert s1.agentLogs == s.agentLogs + [StageLine(dp, run, SopAnalysis)] && s1.processDiagramPath == dp;
    LaterStagesLogs(s1, run, o);
    var t := Pipeline(s, run, o).value;
    var logs := StageLogs(dp, run);
    AppendOneByOne(s.agentLogs, logs);
    assert t.agentLogs == s.agentLogs + logs;
    forall i | 0 <= i < |StageOrder|
      ensures LogPrefix(StageOrder[i]) <= t.agentLogs[|s.agentLogs| + i]
    {
      StageLogsAt(dp, run, i);
      StageLineNamesStage(dp, run, StageOrder[i]);
    }
  }

  /** The seven later stages append one line each, in graph order. */
  lemma LaterStagesLogs(s1: Snapshot, run: Run, o: Outcomes)
    ensures var dp := s1.processDiagramPath;
            LaterStages(s1, run, o).agentLogs
            == s1.agentLogs + [StageLine(dp, run, ProcessMapping)] + [StageLine(dp, run, GapIdentification)]
                            + [StageLine(dp, run, AutomationOpportunity)] + [StageLine(dp, run, FutureStateDesign)]
                            + [StageLine(dp, run, TestCaseGeneration)] + [StageLine(dp, run, CodeGeneration)]
                            + [StageLine(dp, run, KpiCalculation)]
  {
    var dp := s1.processDiagramPath;
    var s2 := MapStage(s1, o.currentMap, run.clock(ProcessMapping));
    assert s2.agentLogs == s1.agentLogs + [StageLine(dp, run, ProcessMapping)] && s2.processDiagramPath == dp;
    var s3 := GapStage(s2, run.reply(GapIdentification), run.clock(GapIdentification));
    assert s3.agentLogs == s2.agentLogs + [StageLine(dp, run, GapIdentification)] && s3.processDiagramPath == dp;
    var s4 := OpportunityStage(s3, o.opportunitiesParsed, run.clock(AutomationOpportunity));
    assert s4.agentLogs == s3.agentLogs + [StageLine(dp, run, AutomationOpportunity)];
    var s5 := FutureStage(s4, o.futureBlock, run.reply(FutureStateDesign), run.clock(FutureStateDesign));
    assert s5.agentLogs == s4.agentLogs + [StageLine(dp, run, FutureStateDesign)];
    var s6 := TestCaseStage(s5, o.testCasesParsed, run.clock(TestCaseGeneration));
    assert s6.agentLogs == s5.agentLogs + [StageLine(dp, run, TestCaseGeneration)];
    var s7 := CodeStage(s6, run.reply(CodeGeneration), run.clock(CodeGeneration));
    assert s7.agentLogs == s6.agentLogs + [StageLine(dp, run, CodeGeneration)];
    var s8 := KpiStage(s7, o.kpiParsed, run.clock(KpiCalculation));
    assert s8.agentLogs == s7.agentLogs + [StageLine(dp, run, KpiCalculation)];
    assert LaterStages(s1, run, o) == s8;
  }

  /** Appending eight items one at a time appends all eight. */
  lemma AppendOneByOne<T>(p: seq<T>, xs: seq<T>)
    requires |xs| == 8
    ensures p + [xs[0]] + [xs[1]] + [xs[2]] + [xs[3]] + [xs[4]] + [xs[5]] + [xs[6]] + [xs[7]] == p + xs
  {
    assert xs == [xs[0], xs[1], xs[2], xs[3], xs[4], xs[5], xs[6], xs[7]];
  }

  /** The line stage `st` logs in a successful run. */
  function StageLine(diagramPath: Option<string>, run: Run, st: Stage): string {
    if st == GapIdentification && NoDiagram(diagramPath) then GapSkippedLog else CompletedLog(st, run.clock(st))
  }

  /** The eight lines a successful run logs, in graph order. */
  function StageLogs(diagramPath: Option<string>, run: Run): (logs: seq<string>)
    ensures |logs| == |StageOrder|
  {
    [StageLine(diagramPath, run, SopAnalysis), StageLine(diagramPath, run, ProcessMapping),
     StageLine(diagramPath, run, GapIdentification), StageLine(diagramPath, run, AutomationOpportunity),
     StageLine(diagramPath, run, FutureStateDesign), StageLine(diagramPath, run, TestCaseGeneration),
     StageLine(diagramPath, run, CodeGeneration), StageLine(diagramPath, run, KpiCalculation)]
  }

  lemma StageLogsAt(diagramPath: Option<string>, run: Run, i: nat)
    requires i < |StageOrder|
    ensures StageLogs(diagramPath, run)[i] == StageLine(diagramPath, run, StageOrder[i])
  {
    var logs := StageLogs(diagramPath, run);
    if i == 0 { assert StageOrder[0] == SopAnalysis; }
    else if i == 1 { assert StageOrder[1] == ProcessMapping; }
    else if i == 2 { assert StageOrder[2] == GapIdentification; }
    else if i == 3 { assert StageOrder[3] == AutomationOpportunity; }
    else if i == 4 { assert StageOrder[4] == FutureStateDesign; }
    else if i == 5 { assert StageOrder[5] == TestCaseGeneration; }
    else if i == 6 { assert StageOrder[6] == CodeGeneration; }
    else { assert StageOrder[7] == KpiCalculation; }
  }

  /** The gap stage's line names the stage whether it ran or was skipped,
      and so does every other stage's completion line. */
  lemma StageLineNamesStage(diagramPath: Option<string>, run: Run, st: Stage)
    ensures LogPrefix(st) <= StageLine(diagramPath, run, st)
  {
    if st == GapIdentification && NoDiagram(diagramPath) {
      PrefixOfAppend(LogPrefix(GapIdentification), " skipped - no diagram provided");
    } else {
      var clock := run.clock(st);
      assert CompletedLog(st, clock) == LogPrefix(st) + (CompletedWords(st) + clock.display);
      PrefixOfAppend(LogPrefix(st), CompletedWords(st) + clock.display);
    }
  }

  lemma PrefixOfAppend(a: string, b: string)
    ensures a <= a + b
  {
    assert (a + b)[..|a|] == a;
  }

  /** The error a stage adds: its message if its reply did not parse. */
  function ErrorIf(parsed: Option<Json>, message: string): seq<string> {
    if parsed.None? then [message] else []
  }

  /** Errors only accumulate: one per JSON stage whose reply does not parse,
      in stage order, so at most four per run. */
  lemma PipelineErrors(s: Snapshot, run: Run, o: Outcomes)
    requires Pipeline(s, run, o).Success?
    ensures Pipeline(s, run, o).value.errors
            == s.errors + ErrorIf(o.sopParsed, SopParseError) + ErrorIf(o.opportunitiesParsed, OpportunitiesParseError)
                        + ErrorIf(o.testCasesParsed, TestCasesParseError) + ErrorIf(o.kpiParsed, KpiParseError)
    ensures |Pipeline(s, run, o).value.errors| <= |s.errors| + 4
  {
  }

  /** What a successful run leaves in the state: the document and its
      structure, the current-state map, the future-state map (falling back to
      the current one), each parsed value or its default, the stamped free-text
      results, and the inputs and identifiers as they were. */
  lemma PipelineOutputs(s: Snapshot, run: Run, o: Outcomes)
    requires Pipeline(s, run, o).Success?
    ensures var t := Pipeline(s, run, o).value;
            && t.sopText == run.documentText
            && t.sopStructure == Some(if o.sopParsed.Some? then o.structure.(detailedAnalysis := o.sopParsed) else o.structure)
            && t.currentStateMap == o.currentMap
            && t.futureStateMap == o.futureBlock.GetOr(o.currentMap)
            && t.automationOpportunities == o.opportunitiesParsed.GetOr(JArr([]))
            && t.testCases == o.testCasesParsed.GetOr(JArr([]))
            && t.kpiAnalysis == o.kpiParsed.GetOr(JObj([]))
            && t.gapAnalysis == (if NoDiagram(s.processDiagramPath) then None
                                 else Some(Stamped(run.reply(GapIdentification), run.clock(GapIdentification).iso)))
            && t.futureStateArchitecture == Some(Stamped(run.reply(FutureStateDesign), run.clock(FutureStateDesign).iso))
            && t.generatedCode == Some(Stamped(run.reply(CodeGeneration), run.clock(CodeGeneration).iso))
            && t.diagramContent == (if !NoDiagram(s.processDiagramPath) && IsImagePath(s.processDiagramPath.value)
                                    then Some(ImageDiagramContent) else s.diagramContent)
            && t.sopDocumentPath == s.sopDocumentPath && t.processDiagramPath == s.processDiagramPath
            && t.domain == s.domain && t.sessionId == s.sessionId && t.timestamp == s.timestamp
            && t.currentStateSteps == s.currentStateSteps && t.requirements == s.requirements
  {
  }

  /** In a real run the future-state map falls back to the map the
      process-mapping stage extracted when the design reply has no
      ```mermaid block. */
  lemma FutureMapFallsBack(run: Run)
    ensures !Contains(run.reply(FutureStateDesign), MermaidFence) ==>
              OutcomesOf(run).futureBlock.GetOr(OutcomesOf(run).currentMap) == CurrentStateMap(run.reply(ProcessMapping))
    ensures Contains(run.reply(FutureStateDesign), MermaidFence) ==>
              OutcomesOf(run).futureBlock.GetOr(OutcomesOf(run).currentMap) == CurrentStateMap(run.reply(FutureStateDesign))
  {
    FutureStateMapFallback(run.reply(FutureStateDesign), CurrentStateMap(run.reply(ProcessMapping)));
  }
}

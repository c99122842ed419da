/**
 * The doctor-assistant agent set: three agents whose downstream links form a
 * transfer cycle, and the two local tool handlers that two of them carry.
 */
module AgentConfigs {
  import opened Wrappers
  import opened JsValues

  /** The local handlers that an agent's tool table can name. */
  datatype ToolHandler = SurgicalScribe | UpdateSurgicalReport

  /**
   * An agent: its unique name, the names of the tools it declares, its
   * tool table (tool name to local handler) and the names of the agents it
   * may hand over to. Instructions and descriptions are opaque text and are
   * not kept.
   */
  datatype Agent = Agent(
    name: string,
    tools: seq<string>,
    toolLogic: map<string, ToolHandler>,
    downstreamAgents: seq<string>)

  datatype Message = Message(role: string, content: JsVal)

  /** What a handler resolves to: a list of messages, or the failure record of its catch branch. */
  datatype ToolResult = Messages(messages: seq<Message>) | Failed(error: string)

  const ChiefAssistant: Agent :=
    Agent("chiefAssistant", [], map[], ["operativeReportAssistant"])

  const OperativeReportAssistant: Agent :=
    Agent("operativeReportAssistant", ["surgicalScribeTool"],
          map["surgicalScribeTool" := SurgicalScribe], ["surgicalEditor"])

  const SurgicalEditor: Agent :=
    Agent("surgicalEditor", ["updateSurgicalReportTool"],
          map["updateSurgicalReportTool" := UpdateSurgicalReport], ["chiefAssistant"])

  /** The set handed to the session, in registration order (the first is the initial agent). */
  const DoctorAssistantAgents: seq<Agent> := [ChiefAssistant, OperativeReportAssistant, SurgicalEditor]

  /** `agents.find(a => a.name === name)`: the first agent carrying that name. */
  function FindAgent(agents: seq<Agent>, name: string): (r: Option<Agent>)
    ensures r.Some? ==> r.value in agents && r.value.name == name
    ensures r.None? <==> forall i :: 0 <= i < |agents| ==> agents[i].name != name
    ensures r.Some? ==> exists i :: 0 <= i < |agents| && agents[i] == r.value
                          && forall j :: 0 <= j < i ==> agents[j].name != name
  {
    if |agents| == 0 then None
    else if agents[0].name == name then Some(agents[0])
    else
      var rest := FindAgent(agents[1..], name);
      if rest.Some? then
        ghost var i :| 0 <= i < |agents[1..]| && agents[1..][i] == rest.value
                       && forall j :: 0 <= j < i ==> agents[1..][j].name != name;
        assert agents[i + 1] == rest.value;
        rest
      else rest
  }

  /** Each configured name resolves to its own agent. */
  lemma FindConfigured()
    ensures FindAgent(DoctorAssistantAgents, "chiefAssistant") == Some(ChiefAssistant)
    ensures FindAgent(DoctorAssistantAgents, "operativeReportAssistant") == Some(OperativeReportAssistant)
    ensures FindAgent(DoctorAssistantAgents, "surgicalEditor") == Some(SurgicalEditor)
  {
    var agents := DoctorAssistantAgents;
    assert agents[1..] == [OperativeReportAssistant, SurgicalEditor];
    assert agents[1..][1..] == [SurgicalEditor];
    assert FindAgent(agents[1..][1..], "surgicalEditor") == Some(SurgicalEditor);
  }

  predicate DistinctNames(agents: seq<Agent>) {
    forall i, j :: 0 <= i < j < |agents| ==> agents[i].name != agents[j].name
  }

  /** Every downstream name of every agent resolves to an agent of the set. */
  predicate ClosedGraph(agents: seq<Agent>) {
    forall i, k :: 0 <= i < |agents| && 0 <= k < |agents[i].downstreamAgents| ==>
      FindAgent(agents, agents[i].downstreamAgents[k]).Some?
  }

  /** The tool table and the declared tools name the same tools. */
  predicate ToolsMatchLogic(a: Agent) {
    a.toolLogic.Keys == set t | t in a.tools
  }

  /** The agent an agent hands over to first, within `agents`. */
  function Next(agents: seq<Agent>, a: Agent): Option<Agent> {
    if |a.downstreamAgents| == 0 then None else FindAgent(agents, a.downstreamAgents[0])
  }

  /**
   * The configured set: three agents with distinct names, a closed downstream
   * graph, and tool tables that match the declared tools (none for the chief,
   * the scribe tool for the operative-report agent, the update tool for the
   * editor).
   */
  lemma DoctorAssistantShape()
    ensures |DoctorAssistantAgents| == 3
    ensures DistinctNames(DoctorAssistantAgents)
    ensures DoctorAssistantAgents[0].name == "chiefAssistant"
    ensures DoctorAssistantAgents[1].name == "operativeReportAssistant"
    ensures DoctorAssistantAgents[2].name == "surgicalEditor"
    ensures ClosedGraph(DoctorAssistantAgents)
    ensures forall i :: 0 <= i < 3 ==> ToolsMatchLogic(DoctorAssistantAgents[i])
    ensures ChiefAssistant.toolLogic == map[] && ChiefAssistant.tools == []
    ensures OperativeReportAssistant.toolLogic.Keys == {"surgicalScribeTool"}
    ensures SurgicalEditor.toolLogic.Keys == {"updateSurgicalReportTool"}
  {
    DoctorAssistantNames();
    DoctorAssistantGraph();
    DoctorAssistantTools();
  }

  lemma DoctorAssistantNames()
    ensures |DoctorAssistantAgents| == 3
    ensures DoctorAssistantAgents[0].name == "chiefAssistant"
    ensures DoctorAssistantAgents[1].name == "operativeReportAssistant"
    ensures DoctorAssistantAgents[2].name == "surgicalEditor"
    ensures DistinctNames(DoctorAssistantAgents)
  {
    assert "chiefAssistant"[0] != "operativeReportAssistant"[0];
    assert "chiefAssistant"[0] != "surgicalEditor"[0];
    assert "operativeReportAssistant"[0] != "surgicalEditor"[0];
  }

  lemma DoctorAssistantGraph()
    ensures ClosedGraph(DoctorAssistantAgents)
  {
    FindConfigured();
    forall i, k | 0 <= i < |DoctorAssistantAgents| && 0 <= k < |DoctorAssistantAgents[i].downstreamAgents|
      ensures FindAgent(DoctorAssistantAgents, DoctorAssistantAgents[i].downstreamAgents[k]).Some?
    {
      assert k == 0;
    }
  }

  lemma DoctorAssistantTools()
    ensures forall i :: 0 <= i < 3 ==> ToolsMatchLogic(DoctorAssistantAgents[i])
    ensures ChiefAssistant.toolLogic == map[] && ChiefAssistant.tools == []
    ensures OperativeReportAssistant.toolLogic.Keys == {"surgicalScribeTool"}
    ensures SurgicalEditor.toolLogic.Keys == {"updateSurgicalReportTool"}
  {
    assert ToolsMatchLogic(ChiefAssistant);
    assert ToolsMatchLogic(OperativeReportAssistant);
    assert ToolsMatchLogic(SurgicalEditor);
  }

  /** Following the first downstream link three times from any agent returns to it: chief, operative report, editor, chief. */
  lemma DoctorAssistantCycle()
    ensures Next(DoctorAssistantAgents, ChiefAssistant) == Some(OperativeReportAssistant)
    ensures Next(DoctorAssistantAgents, OperativeReportAssistant) == Some(SurgicalEditor)
    ensures Next(DoctorAssistantAgents, SurgicalEditor) == Some(ChiefAssistant)
  {
    FindConfigured();
  }

  // ---- surgicalScribeTool ----------------------------------------------------

  /** `x = d` in a destructuring pattern: the default replaces only `undefined`. */
  function Default(v: JsVal, d: JsVal): (r: JsVal)
    ensures v.Undefined? ==> r == d
    ensures !v.Undefined? ==> r == v
  {
    if v.Undefined? then d else v
  }

  /** `${x || fallback}`. */
  function OrText(v: JsVal, fallback: string): (r: string)
    ensures !Truthy(v) ==> r == fallback
    ensures Truthy(v) ==> r == ToStr(v)
  {
    if Truthy(v) then ToStr(v) else fallback
  }

  /** An array joined with ", ", and the empty text for anything that is not an array. */
  function JoinIfArray(v: JsVal): (r: string)
    ensures !v.Arr? ==> r == ""
    ensures v.Arr? && |v.elems| == 0 ==> r == ""
  {
    if v.Arr? then Join(v.elems, ", ") else ""
  }

  /** The texts substituted into the report template, in template order. */
  datatype ReportFields = ReportFields(
    patientAge: string, gender: string, diagnosis: string, medicalHistory: string,
    anesthesia: string, duration: string, implants: string, surgeryOther: string,
    discharge: string, rehab: string, postOpOther: string, additional: string)

  const Indent: string := "              "

  /** The report request text: a heading line and one indented line per entry. */
  function RenderReport(f: ReportFields): (r: string)
    ensures |r| > 0
  {
    "Generate surgical report for:"
    + "\n" + Indent + "Patient Age: " + f.patientAge
    + "\n" + Indent + "Gender: " + f.gender
    + "\n" + Indent + "Diagnosis: " + f.diagnosis
    + "\n" + Indent + "Medical History: " + f.medicalHistory
    + "\n" + Indent + "Surgery Details:"
    + "\n" + Indent + "- Anesthesia: " + f.anesthesia
    + "\n" + Indent + "- Duration: " + f.duration
    + "\n" + Indent + "- Implants: " + f.implants
    + "\n" + Indent + "- Other Details: " + f.surgeryOther
    + "\n" + Indent + "Post-Op:"
    + "\n" + Indent + "- Discharge: " + f.discharge
    + "\n" + Indent + "- Rehab: " + f.rehab
    + "\n" + Indent + "- Other Details: " + f.postOpOther
    + "\n" + Indent + "Additional Information: " + f.additional
  }

  /** The arguments after destructuring with defaults. */
  datatype ScribeArgs = ScribeArgs(
    patientAge: JsVal, patientGender: JsVal, diagnosis: JsVal, medicalHistory: JsVal,
    surgicalDetails: JsVal, otherDetails: JsVal, postOpPlan: JsVal)

  function Destructure(params: JsVal): (a: ScribeArgs)
    requires !params.Undefined? && !params.Null?
    ensures a.surgicalDetails == Default(Field(params, "surgicalDetails"), Obj(map[]))
    ensures a.postOpPlan == Default(Field(params, "postOpPlan"), Obj(map[]))
    ensures !a.surgicalDetails.Undefined? && !a.postOpPlan.Undefined?
  {
    ScribeArgs(
      Field(params, "patientAge"), Field(params, "patientGender"), Field(params, "diagnosis"),
      Default(Field(params, "medicalHistory"), Arr([])),
      Default(Field(params, "surgicalDetails"), Obj(map[])),
      Default(Field(params, "otherDetails"), Str("None")),
      Default(Field(params, "postOpPlan"), Obj(map[])))
  }

  /**
   * The template's substitutions. Falsy anesthesia, tourniquet time,
   * discharge timing and rehab protocol read "N/A"; falsy other-details
   * entries read "None"; list entries are joined with ", " when they are
   * arrays and empty otherwise.
   */
  function ScribeFields(a: ScribeArgs): (f: ReportFields)
    requires !a.surgicalDetails.Null? && !a.surgicalDetails.Undefined?
    requires !a.postOpPlan.Null? && !a.postOpPlan.Undefined?
    ensures f.patientAge == ToStr(a.patientAge) && f.gender == ToStr(a.patientGender)
    ensures f.diagnosis == ToStr(a.diagnosis) && f.additional == ToStr(a.otherDetails)
    ensures f.medicalHistory == JoinIfArray(a.medicalHistory)
    ensures f.implants == JoinIfArray(Field(a.surgicalDetails, "implants"))
    ensures !Truthy(Field(a.surgicalDetails, "anesthesia")) ==> f.anesthesia == "N/A"
    ensures !Truthy(Field(a.surgicalDetails, "tourniquetTime")) ==> f.duration == "N/A"
    ensures !Truthy(Field(a.surgicalDetails, "otherDetails")) ==> f.surgeryOther == "None"
    ensures !Truthy(Field(a.postOpPlan, "dischargeTiming")) ==> f.discharge == "N/A"
    ensures !Truthy(Field(a.postOpPlan, "rehabProtocol")) ==> f.rehab == "N/A"
    ensures !Truthy(Field(a.postOpPlan, "otherDetails")) ==> f.postOpOther == "None"
    ensures Truthy(Field(a.surgicalDetails, "anesthesia")) ==> f.anesthesia == ToStr(Field(a.surgicalDetails, "anesthesia"))
    ensures Truthy(Field(a.surgicalDetails, "tourniquetTime")) ==> f.duration == ToStr(Field(a.surgicalDetails, "tourniquetTime"))
    ensures Truthy(Field(a.postOpPlan, "dischargeTiming")) ==> f.discharge == ToStr(Field(a.postOpPlan, "dischargeTiming"))
    ensures Truthy(Field(a.postOpPlan, "rehabProtocol")) ==> f.rehab == ToStr(Field(a.postOpPlan, "rehabProtocol"))
    ensures Truthy(Field(a.surgicalDetails, "otherDetails")) ==> f.surgeryOther == ToStr(Field(a.surgicalDetails, "otherDetails"))
    ensures Truthy(Field(a.postOpPlan, "otherDetails")) ==> f.postOpOther == ToStr(Field(a.postOpPlan, "otherDetails"))
  {
    var sd := a.surgicalDetails;
    var post := a.postOpPlan;
    ReportFields(
      ToStr(a.patientAge), ToStr(a.patientGender), ToStr(a.diagnosis),
      JoinIfArray(a.medicalHistory),
      OrText(Field(sd, "anesthesia"), "N/A"),
      OrText(Field(sd, "tourniquetTime"), "N/A"),
      JoinIfArray(Field(sd, "implants")),
      OrText(Field(sd, "otherDetails"), "None"),
      OrText(Field(post, "dischargeTiming"), "N/A"),
      OrText(Field(post, "rehabProtocol"), "N/A"),
      OrText(Field(post, "otherDetails"), "None"),
      ToStr(a.otherDetails))
  }

  const ScribeFailure: string := "Failed to prepare report request."

  /**
   * The `surgicalScribeTool` handler. Destructuring `null`/`undefined`
   * arguments throws before the handler's try block; a `null` surgical-details
   * or post-op entry makes the template throw inside it, which yields the
   * failure record; everything else yields exactly one assistant message
   * carrying the report text. Required fields are not enforced.
   */
  function SurgicalScribeTool(params: JsVal): (r: Result<ToolResult>)
    ensures r.Threw? <==> (params.Undefined? || params.Null?)
    ensures r.Ok? ==> (r.value.Failed? <==>
      (Field(params, "surgicalDetails").Null? || Field(params, "postOpPlan").Null?))
    ensures r.Ok? && r.value.Failed? ==> r.value.error == ScribeFailure
    ensures r.Ok? && r.value.Messages? ==>
      |r.value.messages| == 1 && r.value.messages[0].role == "assistant"
      && r.value.messages[0].content == Str(RenderReport(ScribeFields(Destructure(params))))
  {
    if params.Undefined? || params.Null? then Threw
    else
      var a := Destructure(params);
      if a.surgicalDetails.Null? || a.postOpPlan.Null? then Ok(Failed(ScribeFailure))
      else Ok(Messages([Message("assistant", Str(RenderReport(ScribeFields(a))))]))
  }

  /** A call without surgical details or post-op plan still produces a report rather than the failure record. */
  lemma ScribeWithoutSurgicalDetails(params: map<string, JsVal>)
    requires "surgicalDetails" !in params
    requires "postOpPlan" !in params
    ensures SurgicalScribeTool(Obj(params)).Ok?
    ensures SurgicalScribeTool(Obj(params)).value.Messages?
  {
    assert Destructure(Obj(params)).surgicalDetails == Obj(map[]);
  }

  /** In that report every surgical and post-op detail reads its default. */
  lemma DetailsDefaultWhenAbsent(params: map<string, JsVal>)
    requires "surgicalDetails" !in params
    requires "postOpPlan" !in params
    ensures var f := ScribeFields(Destructure(Obj(params)));
      f.anesthesia == "N/A" && f.duration == "N/A" && f.implants == ""
      && f.surgeryOther == "None" && f.discharge == "N/A" && f.rehab == "N/A"
      && f.postOpOther == "None"
  {
    var a := Destructure(Obj(params));
    assert a.surgicalDetails == Obj(map[]) && a.postOpPlan == Obj(map[]);
  }

  /** A tourniquet time of 0 is falsy, so it renders as "N/A" rather than "0". */
  lemma TourniquetZeroRendersNA(sd: map<string, JsVal>)
    requires "tourniquetTime" in sd && sd["tourniquetTime"] == Num(0)
    ensures ScribeFields(ScribeArgs(Undefined, Undefined, Undefined, Arr([]), Obj(sd), Str("None"), Obj(map[]))).duration == "N/A"
  {
  }

  // ---- updateSurgicalReportTool ----------------------------------------------

  /**
   * The `updateSurgicalReportTool` handler: one assistant message whose
   * content is the `updateText` argument as given (undefined when absent).
   * Destructuring `null`/`undefined` arguments throws.
   */
  function UpdateSurgicalReportTool(params: JsVal): (r: Result<ToolResult>)
    ensures r.Threw? <==> (params.Undefined? || params.Null?)
    ensures r.Ok? ==>
              && r.value.Messages? && |r.value.messages| == 1
              && r.value.messages[0].role == "assistant"
              && Get(params, "updateText") == Ok(r.value.messages[0].content)
  {
    match Get(params, "updateText")
    case Threw => Threw
    case Ok(text) => Ok(Messages([Message("assistant", text)]))
  }

  function RunHandler(h: ToolHandler, params: JsVal): Result<ToolResult> {
    match h
    case SurgicalScribe => SurgicalScribeTool(params)
    case UpdateSurgicalReport => UpdateSurgicalReportTool(params)
  }
}

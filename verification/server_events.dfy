/**
 * The primary session's server-event reducer and its function-call
 * dispatcher: which agent is active, what the shared patient note holds,
 * whether the mail trigger fired, which transcript operations were issued
 * and which client events were queued for the data channel.
 *
 * `JSON.parse` is the parameter `parse` (`None` when it throws). Each event
 * is taken to see the state the previous event left behind.
 */
module ServerEvents {
  import opened Wrappers
  import opened JsValues
  import opened Statuses
  import opened AgentConfigs

  /** A call into the transcript store; the store itself is not part of this model. */
  datatype TranscriptOp =
    | AddMessage(itemId: string, role: string, text: string)
    | UpdateMessage(itemId: string, text: string, isDelta: bool)
    | MarkDone(itemId: string)

  /** The `output` of a `function_call_output` item, before it is serialised. */
  datatype CallOutput =
    | ToolOutput(result: ToolResult)
    | TransferOutput(destinationAgent: JsVal, didTransfer: bool)
    | Acknowledged   // `{result: true}`

  datatype ClientEvent =
    | FunctionCallOutput(callId: string, output: CallOutput)
    | ResponseCreate

  datatype SessionState = SessionState(
    agents: seq<Agent>,
    activeAgent: string,
    patientNote: Option<JsVal>,
    sendEmail: bool,
    transcript: seq<TranscriptOp>,
    outbox: seq<ClientEvent>,
    status: SessionStatus)

  /** A `response.done` output entry; missing strings are "". */
  datatype OutputItem = OutputItem(itemType: string, name: string, callId: string, arguments: string)

  datatype FunctionCall = FunctionCall(name: string, callId: string, arguments: string)

  /** Server events; missing strings are "". */
  datatype ServerEvent =
    | ConnectionStatusChanged
    | SessionCreated(sessionId: string)
    | ItemCreated(itemId: string, role: string, text: string, audioTranscript: string)
    | TranscriptionCompleted(itemId: string, transcript: string)
    | AudioTranscriptDelta(itemId: string, delta: string)
    | ResponseDone(output: seq<OutputItem>)
    | OutputItemDone(itemId: string)
    | OtherEvent(eventType: string)

  const TransferToolName: string := "transferAgents"
  const ScribeToolName: string := "surgicalScribeTool"
  const UpdateToolName: string := "updateSurgicalReportTool"
  const EmailAction: string := "you have to send an email now"
  const TranscribingPlaceholder: string := "[Transcribing...]"
  const InaudiblePlaceholder: string := "[inaudible]"

  /** The session once an agent set is selected: its first agent is active. */
  function InitialSession(agents: seq<Agent>): (st: SessionState)
    ensures |agents| > 0 ==> st.activeAgent == agents[0].name
    ensures st.patientNote.None? && !st.sendEmail && st.transcript == [] && st.outbox == []
  {
    SessionState(agents, if |agents| > 0 then agents[0].name else "", None, false, [], [], Disconnected)
  }

  function HasItem(ts: seq<TranscriptOp>, id: string): (b: bool)
    ensures b <==> exists i :: 0 <= i < |ts| && ts[i].AddMessage? && ts[i].itemId == id
  {
    exists i | 0 <= i < |ts| :: ts[i].AddMessage? && ts[i].itemId == id
  }

  // ---- function-call dispatch -------------------------------------------------

  /** The destination names an agent of the whole set (not only a downstream one). */
  predicate InAgentSet(agents: seq<Agent>, dest: JsVal) {
    dest.Str? && exists i :: 0 <= i < |agents| && agents[i].name == dest.s
  }

  /**
   * The `transferAgents` branch: the active agent becomes the destination
   * exactly when an agent of that name is in the set, and the output reports
   * whether that happened. No new response is requested. Reading the
   * destination off `null` arguments throws, and nothing happens.
   */
  function TransferCall(st: SessionState, callId: string, args: JsVal): (r: SessionState)
    ensures (args.Null? || args.Undefined?) ==> r == st
    ensures !(args.Null? || args.Undefined?) ==>
              var dest := Field(args, "destination_agent");
              && r.activeAgent == (if InAgentSet(st.agents, dest) then dest.s else st.activeAgent)
              && r.outbox == st.outbox + [FunctionCallOutput(callId, TransferOutput(dest, InAgentSet(st.agents, dest)))]
              && r.(activeAgent := st.activeAgent, outbox := st.outbox) == st
  {
    match Get(args, "destination_agent")
    case Threw => st
    case Ok(dest) =>
      var found := if dest.Str? then FindAgent(st.agents, dest.s) else None;
      var active := if found.Some? then dest.s else st.activeAgent;
      st.(activeAgent := active,
          outbox := st.outbox + [FunctionCallOutput(callId, TransferOutput(dest, found.Some?))])
  }

  /** An unrecognised name: acknowledged with `{result: true}` and a new response, nothing else changes. */
  function FallbackCall(st: SessionState, callId: string): (r: SessionState)
    ensures r.outbox == st.outbox + [FunctionCallOutput(callId, Acknowledged), ResponseCreate]
    ensures r.(outbox := st.outbox) == st
  {
    st.(outbox := st.outbox + [FunctionCallOutput(callId, Acknowledged), ResponseCreate])
  }

  /** `fnResult.messages?.[0]?.content`. */
  function FirstContent(res: ToolResult): (c: JsVal)
    ensures res.Messages? && |res.messages| > 0 ==> c == res.messages[0].content
    ensures !(res.Messages? && |res.messages| > 0) ==> c == Undefined
  {
    if res.Messages? && |res.messages| > 0 then res.messages[0].content else Undefined
  }

  /** A tool-table call whose handler result is awaited after the synchronous calls. */
  datatype PendingTool = PendingTool(call: FunctionCall, args: JsVal, handler: ToolHandler)

  /**
   * The continuation of a tool-table call. A handler that throws ends the
   * call silently. Otherwise the scribe tool stores its first message's
   * content as the patient note when that is truthy, the update tool stores
   * a truthy `updateText` argument, and the result goes out followed by a
   * response request.
   */
  function ToolContinuation(st: SessionState, p: PendingTool): (r: SessionState)
    ensures r.agents == st.agents && r.activeAgent == st.activeAgent
    ensures r.transcript == st.transcript && r.sendEmail == st.sendEmail
    ensures |st.outbox| <= |r.outbox| && r.outbox[..|st.outbox|] == st.outbox
    ensures RunHandler(p.handler, p.args).Threw? ==> r == st
    ensures RunHandler(p.handler, p.args).Ok? && !(p.args.Null? || p.args.Undefined?) ==>
              var res := RunHandler(p.handler, p.args).value;
              && r.outbox == st.outbox + [FunctionCallOutput(p.call.callId, ToolOutput(res)), ResponseCreate]
              && r.activeAgent == st.activeAgent && r.sendEmail == st.sendEmail
              && r.transcript == st.transcript && r.agents == st.agents
              && (p.call.name == ScribeToolName && Truthy(FirstContent(res)) ==> r.patientNote == Some(FirstContent(res)))
              && (p.call.name == UpdateToolName && Truthy(Field(p.args, "updateText")) ==> r.patientNote == Some(Field(p.args, "updateText")))
              && (p.call.name == ScribeToolName && !Truthy(FirstContent(res)) ==> r.patientNote == st.patientNote)
              && (p.call.name == UpdateToolName && !Truthy(Field(p.args, "updateText")) ==> r.patientNote == st.patientNote)
              && (p.call.name != ScribeToolName && p.call.name != UpdateToolName ==> r.patientNote == st.patientNote)
  {
    match RunHandler(p.handler, p.args)
    case Threw => st
    case Ok(res) =>
      var noted :=
        if p.call.name == ScribeToolName then
          (var c := FirstContent(res); if Truthy(c) then Ok(st.(patientNote := Some(c))) else Ok(st))
        else if p.call.name == UpdateToolName then
          (match Get(p.args, "updateText")
           case Threw => Threw
           case Ok(t) => if Truthy(t) then Ok(st.(patientNote := Some(t))) else Ok(st))
        else Ok(st);
      match noted
      case Threw => st
      case Ok(s) => s.(outbox := s.outbox + [FunctionCallOutput(p.call.callId, ToolOutput(res)), ResponseCreate])
  }

  /** The branch a call takes, decided against the agent active when the batch began. */
  datatype Route = ViaToolTable(handler: ToolHandler) | ViaTransfer | ViaFallback

  /**
   * Resolution order: the active agent's own tool table first, then the
   * transfer tool, then the generic fallback.
   */
  function RouteOf(current: Option<Agent>, name: string): (r: Route)
    ensures current.Some? && name in current.value.toolLogic ==> r == ViaToolTable(current.value.toolLogic[name])
    ensures !(current.Some? && name in current.value.toolLogic) ==>
              (r == ViaTransfer <==> name == TransferToolName)
    ensures !(current.Some? && name in current.value.toolLogic) ==> !r.ViaToolTable?
  {
    if current.Some? && name in current.value.toolLogic then ViaToolTable(current.value.toolLogic[name])
    else if name == TransferToolName then ViaTransfer
    else ViaFallback
  }

  /**
   * The synchronous part of a batch, in output order: transfers and
   * fallbacks take effect at once, tool-table calls are set aside. A call
   * whose arguments do not parse throws before anything happens.
   */
  function SyncPhase(st: SessionState, current: Option<Agent>, calls: seq<FunctionCall>,
                     parse: string -> Option<JsVal>): (r: (SessionState, seq<PendingTool>))
    ensures r.0.agents == st.agents && r.0.patientNote == st.patientNote
    ensures r.0.transcript == st.transcript && r.0.sendEmail == st.sendEmail
    ensures |r.1| <= |calls|
    decreases |calls|
  {
    if |calls| == 0 then (st, [])
    else
      var c := calls[0];
      match parse(c.arguments)
      case None => SyncPhase(st, current, calls[1..], parse)
      case Some(args) =>
        match RouteOf(current, c.name)
        case ViaToolTable(h) =>
          var rest := SyncPhase(st, current, calls[1..], parse);
          (rest.0, [PendingTool(c, args, h)] + rest.1)
        case ViaTransfer => SyncPhase(TransferCall(st, c.callId, args), current, calls[1..], parse)
        case ViaFallback => SyncPhase(FallbackCall(st, c.callId), current, calls[1..], parse)
  }

  /** The awaited tool continuations, in the order their calls appeared. */
  function ToolPhase(st: SessionState, pending: seq<PendingTool>): (r: SessionState)
    ensures r.agents == st.agents && r.activeAgent == st.activeAgent
    ensures r.transcript == st.transcript && r.sendEmail == st.sendEmail
    ensures |st.outbox| <= |r.outbox| && r.outbox[..|st.outbox|] == st.outbox
    decreases |pending|
  {
    if |pending| == 0 then st
    else
      var s1 := ToolContinuation(st, pending[0]);
      var r := ToolPhase(s1, pending[1..]);
      assert r.outbox[..|st.outbox|] == r.outbox[..|s1.outbox|][..|st.outbox|];
      r
  }

  /**
   * `handleFunctionCall` applied to the calls of one `response.done`. The
   * active agent is read once: a transfer earlier in the batch does not
   * change which tool table later calls of the same batch consult.
   */
  function DispatchBatch(st: SessionState, calls: seq<FunctionCall>, parse: string -> Option<JsVal>): (r: SessionState)
    ensures r.agents == st.agents && r.transcript == st.transcript && r.sendEmail == st.sendEmail
    ensures |st.outbox| <= |r.outbox| && r.outbox[..|st.outbox|] == st.outbox
  {
    var sync := SyncPhase(st, FindAgent(st.agents, st.activeAgent), calls, parse);
    SyncPhaseOutboxGrows(st, FindAgent(st.agents, st.activeAgent), calls, parse);
    ToolPhase(sync.0, sync.1)
  }

  lemma {:induction false} SyncPhaseOutboxGrows(st: SessionState, current: Option<Agent>, calls: seq<FunctionCall>,
                                                 parse: string -> Option<JsVal>)
    ensures var r := SyncPhase(st, current, calls, parse).0;
      |st.outbox| <= |r.outbox| && r.outbox[..|st.outbox|] == st.outbox
    decreases |calls|
  {
    if |calls| > 0 {
      var c := calls[0];
      match parse(c.arguments)
      case None => SyncPhaseOutboxGrows(st, current, calls[1..], parse);
      case Some(args) =>
        match RouteOf(current, c.name)
        case ViaToolTable(h) => SyncPhaseOutboxGrows(st, current, calls[1..], parse);
        case ViaTransfer =>
          var s1 := TransferCall(st, c.callId, args);
          SyncPhaseOutboxGrows(s1, current, calls[1..], parse);
          assert s1.outbox[..|st.outbox|] == st.outbox;
        case ViaFallback =>
          var s1 := FallbackCall(st, c.callId);
          SyncPhaseOutboxGrows(s1, current, calls[1..], parse);
          assert s1.outbox[..|st.outbox|] == st.outbox;
    }
  }

  /** The entries of a `response.done` output that are dispatched. */
  predicate IsDispatchable(o: OutputItem) {
    o.itemType == "function_call" && o.name != "" && o.arguments != ""
  }

  function AsCall(o: OutputItem): FunctionCall {
    FunctionCall(o.name, o.callId, o.arguments)
  }

  /**
   * The function calls of a `response.done`: exactly the `function_call`
   * entries with a name and arguments, in output order.
   */
  function DispatchedCalls(output: seq<OutputItem>): (r: seq<FunctionCall>)
    ensures |r| <= |output|
    ensures forall k :: 0 <= k < |r| ==> r[k].name != "" && r[k].arguments != ""
    ensures forall i :: 0 <= i < |output| && IsDispatchable(output[i]) ==> AsCall(output[i]) in r
    ensures forall k :: 0 <= k < |r| ==> exists i :: 0 <= i < |output| && IsDispatchable(output[i]) && AsCall(output[i]) == r[k]
    decreases |output|
  {
    if |output| == 0 then []
    else
      var rest := DispatchedCalls(output[1..]);
      assert forall i :: 1 <= i < |output| ==> output[i] == output[1..][i - 1];
      if IsDispatchable(output[0]) then [AsCall(output[0])] + rest else rest
  }

  /** Dispatch keeps output order: the calls of two consecutive stretches are the first stretch's calls followed by the second's. */
  lemma {:induction false} DispatchedCallsConcat(a: seq<OutputItem>, b: seq<OutputItem>)
    ensures DispatchedCalls(a + b) == DispatchedCalls(a) + DispatchedCalls(b)
    decreases |a|
  {
    if |a| > 0 {
      assert (a + b)[1..] == a[1..] + b;
      DispatchedCallsConcat(a[1..], b);
    } else {
      assert a + b == b;
    }
  }

  // ---- the reducer ---------------------------------------------------------------

  /** `content[0].text || content[0].transcript || ""`. */
  function ItemText(text: string, audioTranscript: string): (r: string)
    ensures text != "" ==> r == text
    ensures text == "" ==> r == audioTranscript
  {
    if text != "" then text else audioTranscript
  }

  /**
   * The mail trigger: the text parses to a value whose `type` is the string
   * "string" and whose `action` is the string "you have to send an email now".
   * Text that does not parse, or parses to `null`, is not a trigger.
   */
  predicate IsEmailTrigger(parsed: Option<JsVal>) {
    && parsed.Some?
    && Get(parsed.value, "type") == Ok(Str("string"))
    && Get(parsed.value, "action") == Ok(Str(EmailAction))
  }

  /** The transcript text stored for a new item: user items with no text yet show a placeholder. */
  function StoredText(role: string, text: string): (r: string)
    ensures role == "user" && text == "" ==> r == TranscribingPlaceholder
    ensures !(role == "user" && text == "") ==> r == text
  {
    if role == "user" && text == "" then TranscribingPlaceholder else text
  }

  /** The final transcript of a completed transcription: empty or a lone newline is inaudible. */
  function FinalTranscript(t: string): (r: string)
    ensures t == "" || t == "\n" ==> r == InaudiblePlaceholder
    ensures !(t == "" || t == "\n") ==> r == t
  {
    if t == "" || t == "\n" then InaudiblePlaceholder else t
  }

  function OnItemCreated(st: SessionState, itemId: string, role: string, text: string,
                         parse: string -> Option<JsVal>): (r: SessionState)
    ensures itemId != "" && HasItem(st.transcript, itemId) ==> r == st
    ensures (!(itemId != "" && HasItem(st.transcript, itemId)) && role == "assistant" && IsEmailTrigger(parse(text))) ==>
              r == st.(sendEmail := true)
    ensures (!(itemId != "" && HasItem(st.transcript, itemId)) && !(role == "assistant" && IsEmailTrigger(parse(text)))) ==>
              r == (if itemId != "" && role != ""
                    then st.(transcript := st.transcript + [AddMessage(itemId, role, StoredText(role, text))])
                    else st)
  {
    if itemId != "" && HasItem(st.transcript, itemId) then st
    else if role == "assistant" && IsEmailTrigger(parse(text)) then st.(sendEmail := true)
    else if itemId != "" && role != "" then
      st.(transcript := st.transcript + [AddMessage(itemId, role, StoredText(role, text))])
    else st
  }

  /**
   * The reducer returned by the hook. While processing is disabled every
   * event but `connection_status_changed` is dropped; that one, like any
   * unrecognised event, changes nothing.
   */
  function HandleServerEvent(st: SessionState, ev: ServerEvent, processEvents: bool,
                             parse: string -> Option<JsVal>): (r: SessionState)
    ensures !processEvents && !ev.ConnectionStatusChanged? ==> r == st
    ensures ev.ConnectionStatusChanged? || ev.OtherEvent? ==> r == st
    ensures r.agents == st.agents
    ensures !ev.ResponseDone? ==> r.outbox == st.outbox && r.activeAgent == st.activeAgent && r.patientNote == st.patientNote
    ensures |st.outbox| <= |r.outbox| && r.outbox[..|st.outbox|] == st.outbox
    ensures r.sendEmail ==> st.sendEmail || (processEvents && ev.ItemCreated? && ev.role == "assistant")
    ensures processEvents && ev.SessionCreated? && ev.sessionId != "" ==> r.status == Connected
  {
    if !processEvents && !ev.ConnectionStatusChanged? then st
    else
      match ev
      case ConnectionStatusChanged => st
      case OtherEvent(_) => st
      case SessionCreated(id) => if id != "" then st.(status := Connected) else st
      case ItemCreated(id, role, text, audio) => OnItemCreated(st, id, role, ItemText(text, audio), parse)
      case TranscriptionCompleted(id, t) =>
        if id != "" then st.(transcript := st.transcript + [UpdateMessage(id, FinalTranscript(t), false)]) else st
      case AudioTranscriptDelta(id, delta) =>
        if id != "" then st.(transcript := st.transcript + [UpdateMessage(id, delta, true)]) else st
      case ResponseDone(output) => DispatchBatch(st, DispatchedCalls(output), parse)
      case OutputItemDone(id) =>
        if id != "" then st.(transcript := st.transcript + [MarkDone(id)]) else st
  }

  // ---- properties ------------------------------------------------------------------

  /** Re-delivering a `conversation.item.created` event changes nothing the first delivery did not. */
  lemma ItemCreatedIdempotent(st: SessionState, ev: ServerEvent, processEvents: bool, parse: string -> Option<JsVal>)
    requires ev.ItemCreated?
    ensures var once := HandleServerEvent(st, ev, processEvents, parse);
      HandleServerEvent(once, ev, processEvents, parse) == once
  {
    var once := HandleServerEvent(st, ev, processEvents, parse);
    if processEvents {
      var text := ItemText(ev.text, ev.audioTranscript);
      if ev.itemId != "" && HasItem(st.transcript, ev.itemId) {
      } else if ev.role == "assistant" && IsEmailTrigger(parse(text)) {
      } else if ev.itemId != "" && ev.role != "" {
        var k := |st.transcript|;
        assert once.transcript[k].AddMessage? && once.transcript[k].itemId == ev.itemId;
        assert HasItem(once.transcript, ev.itemId);
      }
    }
  }

  /**
   * Assistant text that parses to the trigger sets the mail flag and adds no
   * transcript message; assistant text that does not parse is stored as an
   * ordinary message.
   */
  lemma EmailTriggerOnlyOnParsedShape(st: SessionState, id: string, text: string, parse: string -> Option<JsVal>)
    requires id != "" && !HasItem(st.transcript, id) && text != ""
    ensures var r := HandleServerEvent(st, ItemCreated(id, "assistant", text, ""), true, parse);
      && (IsEmailTrigger(parse(text)) ==> r.sendEmail && r.transcript == st.transcript)
      && (!IsEmailTrigger(parse(text)) ==>
            r.sendEmail == st.sendEmail && r.transcript == st.transcript + [AddMessage(id, "assistant", text)])
  {
  }

  /** The trigger compares two fields only: a trigger object carrying further fields still fires. */
  lemma EmailTriggerIgnoresExtraFields(extra: map<string, JsVal>)
    requires "type" !in extra && "action" !in extra
    ensures IsEmailTrigger(Some(Obj(extra["type" := Str("string")]["action" := Str(EmailAction)])))
    ensures !IsEmailTrigger(Some(Null)) && !IsEmailTrigger(None)
  {
  }

  /** A new user item without text is shown as transcribing; a blank completed transcription as inaudible. */
  lemma TranscriptPlaceholders(st: SessionState, id: string, parse: string -> Option<JsVal>)
    requires id != "" && !HasItem(st.transcript, id)
    ensures HandleServerEvent(st, ItemCreated(id, "user", "", ""), true, parse).transcript
              == st.transcript + [AddMessage(id, "user", TranscribingPlaceholder)]
    ensures HandleServerEvent(st, TranscriptionCompleted(id, "\n"), true, parse).transcript
              == st.transcript + [UpdateMessage(id, InaudiblePlaceholder, false)]
    ensures HandleServerEvent(st, TranscriptionCompleted(id, ""), true, parse).transcript
              == st.transcript + [UpdateMessage(id, InaudiblePlaceholder, false)]
  {
  }

  /**
   * A name found in the active agent's tool table is handled by that table,
   * even when it is also the transfer tool's name.
   */
  lemma ToolTableTakesPrecedence(st: SessionState, c: FunctionCall, args: JsVal, parse: string -> Option<JsVal>)
    requires parse(c.arguments) == Some(args)
    requires FindAgent(st.agents, st.activeAgent).Some?
    requires c.name in FindAgent(st.agents, st.activeAgent).value.toolLogic
    ensures DispatchBatch(st, [c], parse)
              == ToolContinuation(st, PendingTool(c, args, FindAgent(st.agents, st.activeAgent).value.toolLogic[c.name]))
  {
    var current := FindAgent(st.agents, st.activeAgent);
    var p := PendingTool(c, args, current.value.toolLogic[c.name]);
    assert SyncPhase(st, current, [c], parse) == (st, [p]) by {
      assert [c][0] == c;
      assert RouteOf(current, c.name) == ViaToolTable(p.handler);
      assert SyncPhase(st, current, [c][1..], parse) == (st, []);
      assert [p] + [] == [p];
    }
    assert ToolPhase(st, [p]) == ToolPhase(ToolContinuation(st, p), []);
  }

  /**
   * A transfer not claimed by the tool table switches to the destination
   * exactly when an agent of that name is in the whole set, reports that
   * outcome as `did_transfer`, and requests no new response.
   */
  lemma TransferIffInAgentSet(st: SessionState, c: FunctionCall, dest: string, args: map<string, JsVal>,
                              parse: string -> Option<JsVal>)
    requires c.name == TransferToolName
    requires parse(c.arguments) == Some(Obj(args))
    requires "destination_agent" in args && args["destination_agent"] == Str(dest)
    requires !(FindAgent(st.agents, st.activeAgent).Some? && c.name in FindAgent(st.agents, st.activeAgent).value.toolLogic)
    ensures var r := DispatchBatch(st, [c], parse);
      var moved := exists i :: 0 <= i < |st.agents| && st.agents[i].name == dest;
      && (moved ==> r.activeAgent == dest)
      && (!moved ==> r.activeAgent == st.activeAgent)
      && r.outbox == st.outbox + [FunctionCallOutput(c.callId, TransferOutput(Str(dest), moved))]
      && r.patientNote == st.patientNote
  {
    var s1 := TransferCall(st, c.callId, Obj(args));
    assert SyncPhase(st, FindAgent(st.agents, st.activeAgent), [c], parse) == (s1, []) by {
      assert SyncPhase(s1, FindAgent(st.agents, st.activeAgent), [c][1..], parse) == (s1, []);
    }
  }

  /**
   * A name that neither the tool table nor the transfer tool claims is
   * acknowledged with `{result: true}` and a new response; agent and note
   * are untouched.
   */
  lemma UnknownCallFallsBack(st: SessionState, c: FunctionCall, args: JsVal, parse: string -> Option<JsVal>)
    requires parse(c.arguments) == Some(args)
    requires c.name != TransferToolName
    requires !(FindAgent(st.agents, st.activeAgent).Some? && c.name in FindAgent(st.agents, st.activeAgent).value.toolLogic)
    ensures var r := DispatchBatch(st, [c], parse);
      && r.outbox == st.outbox + [FunctionCallOutput(c.callId, Acknowledged), ResponseCreate]
      && r.activeAgent == st.activeAgent && r.patientNote == st.patientNote
  {
    var s1 := FallbackCall(st, c.callId);
    assert SyncPhase(st, FindAgent(st.agents, st.activeAgent), [c], parse) == (s1, []) by {
      assert SyncPhase(s1, FindAgent(st.agents, st.activeAgent), [c][1..], parse) == (s1, []);
    }
  }

  /**
   * In the configured set the chief assistant lists only the operative-report
   * agent downstream, yet a transfer straight to the editor is accepted:
   * membership in the whole set is all that is checked.
   */
  lemma TransferBeyondDownstreamAccepted(c: FunctionCall, parse: string -> Option<JsVal>)
    requires c.name == TransferToolName
    requires parse(c.arguments) == Some(Obj(map["destination_agent" := Str("surgicalEditor")]))
    ensures "surgicalEditor" !in ChiefAssistant.downstreamAgents
    ensures DispatchBatch(InitialSession(DoctorAssistantAgents), [c], parse).activeAgent == "surgicalEditor"
  {
    var st := InitialSession(DoctorAssistantAgents);
    ChiefIsActive(st);
    assert ChiefAssistant.downstreamAgents == ["operativeReportAssistant"];
    assert st.agents[2].name == "surgicalEditor";
    TransferIffInAgentSet(st, c, "surgicalEditor", map["destination_agent" := Str("surgicalEditor")], parse);
  }

  /**
   * The scribe tool, called while the operative-report agent is active with
   * arguments that carry no null details, stores its report text as the
   * patient note and answers with the report and a response request.
   */
  lemma ScribeCallStoresReport(st: SessionState, c: FunctionCall, args: map<string, JsVal>, parse: string -> Option<JsVal>)
    requires st.agents == DoctorAssistantAgents && st.activeAgent == "operativeReportAssistant"
    requires c.name == ScribeToolName && parse(c.arguments) == Some(Obj(args))
    requires "surgicalDetails" !in args && "postOpPlan" !in args
    ensures var r := DispatchBatch(st, [c], parse);
      var report := Str(RenderReport(ScribeFields(Destructure(Obj(args)))));
      && r.patientNote == Some(report)
      && r.activeAgent == st.activeAgent
      && r.outbox == st.outbox + [FunctionCallOutput(c.callId, ToolOutput(Messages([Message("assistant", report)]))), ResponseCreate]
  {
    FindConfigured();
    assert FindAgent(st.agents, st.activeAgent) == Some(OperativeReportAssistant);
    assert OperativeReportAssistant.toolLogic[c.name] == SurgicalScribe;
    ToolTableTakesPrecedence(st, c, Obj(args), parse);
    ScribeContinuation(st, c, args);
  }

  lemma ScribeContinuation(st: SessionState, c: FunctionCall, args: map<string, JsVal>)
    requires c.name == ScribeToolName
    requires "surgicalDetails" !in args && "postOpPlan" !in args
    ensures var r := ToolContinuation(st, PendingTool(c, Obj(args), SurgicalScribe));
      var report := Str(RenderReport(ScribeFields(Destructure(Obj(args)))));
      && r.patientNote == Some(report)
      && r.activeAgent == st.activeAgent
      && r.outbox == st.outbox + [FunctionCallOutput(c.callId, ToolOutput(Messages([Message("assistant", report)]))), ResponseCreate]
  {
    var report := Str(RenderReport(ScribeFields(Destructure(Obj(args)))));
    ScribeToolOnPlainArgs(args);
    ScribeResultStored(st, c, Obj(args), report);
  }

  /** Any scribe result whose single message has truthy content becomes the note. */
  lemma ScribeResultStored(st: SessionState, c: FunctionCall, args: JsVal, content: JsVal)
    requires c.name == ScribeToolName && Truthy(content)
    requires SurgicalScribeTool(args) == Ok(Messages([Message("assistant", content)]))
    ensures var r := ToolContinuation(st, PendingTool(c, args, SurgicalScribe));
      && r.patientNote == Some(content)
      && r.activeAgent == st.activeAgent
      && r.outbox == st.outbox + [FunctionCallOutput(c.callId, ToolOutput(Messages([Message("assistant", content)]))), ResponseCreate]
  {
    var res := Messages([Message("assistant", content)]);
    assert RunHandler(SurgicalScribe, args) == Ok(res);
    assert FirstContent(res) == content;
  }

  lemma ScribeToolOnPlainArgs(args: map<string, JsVal>)
    requires "surgicalDetails" !in args && "postOpPlan" !in args
    ensures SurgicalScribeTool(Obj(args))
              == Ok(Messages([Message("assistant", Str(RenderReport(ScribeFields(Destructure(Obj(args))))))]))
  {
    assert Destructure(Obj(args)).surgicalDetails == Obj(map[]);
    assert Destructure(Obj(args)).postOpPlan == Obj(map[]);
  }

  /** The update tool, called while the editor is active, stores a truthy `updateText` verbatim. */
  lemma UpdateCallStoresText(st: SessionState, c: FunctionCall, text: string, parse: string -> Option<JsVal>)
    requires st.agents == DoctorAssistantAgents && st.activeAgent == "surgicalEditor"
    requires c.name == UpdateToolName && text != ""
    requires parse(c.arguments) == Some(Obj(map["updateText" := Str(text)]))
    ensures var r := DispatchBatch(st, [c], parse);
      && r.patientNote == Some(Str(text))
      && r.outbox == st.outbox + [FunctionCallOutput(c.callId, ToolOutput(Messages([Message("assistant", Str(text))]))), ResponseCreate]
  {
    FindConfigured();
    assert FindAgent(st.agents, st.activeAgent) == Some(SurgicalEditor);
    assert SurgicalEditor.toolLogic[c.name] == UpdateSurgicalReport;
    ToolTableTakesPrecedence(st, c, Obj(map["updateText" := Str(text)]), parse);
    UpdateContinuation(st, c, text);
  }

  lemma UpdateContinuation(st: SessionState, c: FunctionCall, text: string)
    requires c.name == UpdateToolName && text != ""
    ensures var r := ToolContinuation(st, PendingTool(c, Obj(map["updateText" := Str(text)]), UpdateSurgicalReport));
      && r.patientNote == Some(Str(text))
      && r.outbox == st.outbox + [FunctionCallOutput(c.callId, ToolOutput(Messages([Message("assistant", Str(text))]))), ResponseCreate]
  {
    var args := Obj(map["updateText" := Str(text)]);
    assert Get(args, "updateText") == Ok(Str(text));
    assert UpdateSurgicalReportTool(args) == Ok(Messages([Message("assistant", Str(text))]));
  }

  /**
   * Tool-table calls are awaited, so within one `response.done` a fallback
   * call that comes after a tool call is answered first: the tool's output
   * and its response request follow the fallback's.
   */
  lemma ToolRepliesFollowSynchronousReplies(st: SessionState, tool: FunctionCall, other: FunctionCall,
                                            parse: string -> Option<JsVal>)
    requires FindAgent(st.agents, st.activeAgent).Some?
    requires tool.name in FindAgent(st.agents, st.activeAgent).value.toolLogic
    requires other.name !in FindAgent(st.agents, st.activeAgent).value.toolLogic && other.name != TransferToolName
    requires parse(tool.arguments).Some? && parse(other.arguments).Some?
    requires RunHandler(FindAgent(st.agents, st.activeAgent).value.toolLogic[tool.name], parse(tool.arguments).value).Ok?
    ensures var res := RunHandler(FindAgent(st.agents, st.activeAgent).value.toolLogic[tool.name],
                                  parse(tool.arguments).value).value;
      DispatchBatch(st, [tool, other], parse).outbox ==
        st.outbox + [FunctionCallOutput(other.callId, Acknowledged), ResponseCreate,
                     FunctionCallOutput(tool.callId, ToolOutput(res)), ResponseCreate]
  {
    var current := FindAgent(st.agents, st.activeAgent).value;
    var targs := parse(tool.arguments).value;
    var p := PendingTool(tool, targs, current.toolLogic[tool.name]);
    var s1 := FallbackCall(st, other.callId);
    ToolThenFallbackSync(st, current, tool, other, parse);
    assert DispatchBatch(st, [tool, other], parse) == ToolPhase(s1, [p]);
    ToolPhaseSingle(s1, p);
    assert !(targs.Null? || targs.Undefined?);
  }

  lemma ChiefIsActive(st: SessionState)
    requires st == InitialSession(DoctorAssistantAgents)
    ensures st.activeAgent == "chiefAssistant"
    ensures FindAgent(st.agents, st.activeAgent) == Some(ChiefAssistant)
    ensures TransferToolName !in ChiefAssistant.toolLogic
  {
    FindConfigured();
  }

  /** The synchronous phase of such a batch: the fallback reply goes out, the tool call waits. */
  lemma ToolThenFallbackSync(st: SessionState, current: Agent, tool: FunctionCall, other: FunctionCall,
                             parse: string -> Option<JsVal>)
    requires tool.name in current.toolLogic
    requires other.name !in current.toolLogic && other.name != TransferToolName
    requires parse(tool.arguments).Some? && parse(other.arguments).Some?
    ensures SyncPhase(st, Some(current), [tool, other], parse)
              == (FallbackCall(st, other.callId), [PendingTool(tool, parse(tool.arguments).value, current.toolLogic[tool.name])])
  {
    var targs := parse(tool.arguments).value;
    assert RouteOf(Some(current), tool.name) == ViaToolTable(current.toolLogic[tool.name]);
    assert RouteOf(Some(current), other.name) == ViaFallback;
    var p := PendingTool(tool, targs, current.toolLogic[tool.name]);
    var s1 := FallbackCall(st, other.callId);
    assert SyncPhase(st, Some(current), [other], parse) == (s1, []) by {
      assert [other][0] == other;
      assert SyncPhase(s1, Some(current), [other][1..], parse) == (s1, []);
    }
    assert [tool, other][0] == tool;
    assert [tool, other][1..] == [other];
    assert [p] + [] == [p];
  }

  lemma ToolPhaseSingle(st: SessionState, p: PendingTool)
    ensures ToolPhase(st, [p]) == ToolContinuation(st, p)
  {
    assert [p][1..] == [];
  }
}

/** What the event pump consumes and what it sends. */
module SessionEvents {
  import opened Wrappers
  import opened Texts
  import opened WorkflowProgress

  // ---------------------------------------------------------------- backend side

  datatype TruncationKind = MaxTokens | ContextWindow | MaxTurns | Budget | WireEnd

  datatype StopReason = NaturalEnd | Truncated(kind: TruncationKind) | Refused

  datatype TurnOutcome = EndTurn | Stopped(stop: StopReason) | Aborted | Failed

  datatype ExitStatus = ExitStatus(code: Option<int>, signal: Option<int>)

  datatype SubagentStatus = PendingInit | Active | Interrupted | Succeeded | Broken | Shutdown

  datatype TaskKind = WorkflowContainer | OtherTask

  /** Events the pump translates without looking at or changing its own state. */
  datatype Aside = UsageReport | BackendTurnBound | TitleChange | Advisory(message: string)

  datatype Event =
    | TurnStarted
    | MessageDelta(text: string)
    | ThoughtDelta(text: string)
    | ToolCall(id: string, name: string, input: Args)
    | ToolResult(id: string, isError: bool, output: Option<string>)
    | ToolOutputDelta(id: string, text: string)
    | TurnResult(isError: bool, resultText: string, outcome: TurnOutcome)
    | Detached(exit: Option<ExitStatus>, summary: Option<string>)
    | Permission(requestId: string)
    | Plan
    | BackendBound(sessionId: Option<string>)
    | SubagentUpdate(ref: string, status: SubagentStatus, kind: Option<TaskKind>, parent: Option<string>)
    | SubagentDetail(ref: string, parent: Option<string>, detail: AgentDetail)
    | WorkflowPhase(taskId: string, index: nat, title: string)
    | CatalogUpdated(hasOptions: bool, hasCommands: bool)
    | Passing(aside: Aside)
    | Dropped

  predicate IsActive(status: SubagentStatus) {
    status == PendingInit || status == Active
  }

  /** Content after a settled terminal starts a turn of the backend's own. */
  predicate IsContent(ev: Event) {
    ev.MessageDelta? || ev.ThoughtDelta? || ev.ToolCall? || ev.ToolResult? || ev.Permission?
  }

  predicate IsCleanResult(ev: Event) {
    ev.TurnResult? && !ev.isError && ev.outcome != Aborted
  }

  // ---------------------------------------------------------------- frontend side

  datatype Failure =
    | UpstreamFailure(text: string)
    | Disconnected(exit: Option<ExitStatus>, summary: Option<string>)

  datatype Tip = Tip(warning: bool, code: string)

  datatype Frame =
    | Text(text: string)
    | Thinking(text: string)
    | ToolFrame(data: ToolData)
    | Progress(data: ToolData, agents: seq<GroupEntry>, settleOnly: bool)
    | PlanFrame
    | PermissionFrame(requestId: string)
    | Finish(session: Option<string>)
    | Error(failure: Failure)
    | SegmentBreak
    | EmptyTurnTip(tip: Tip)
    | ConfigOptions
    | AvailableCommands
    | AsideFrame(aside: Aside)

  predicate IsVisible(f: Frame) {
    f.Text? || f.Thinking? || f.ToolFrame? || f.PlanFrame? || f.PermissionFrame?
  }

  predicate IsTerminal(f: Frame) {
    f.Finish? || f.Error?
  }

  // ---------------------------------------------------------------- pure translations

  datatype CrashOutcome = Crashed | CleanNoResult | FollowResult

  function Classify(terminalSeen: bool, exit: Option<ExitStatus>): CrashOutcome {
    if terminalSeen then FollowResult
    else if exit == Some(ExitStatus(Some(0), None)) then CleanNoResult
    else Crashed
  }

  function EmptyTurnTipFor(outcome: TurnOutcome): Option<Tip> {
    match outcome
    case EndTurn => Some(Tip(false, "ACP_EMPTY_TURN"))
    case Stopped(NaturalEnd) => Some(Tip(false, "ACP_EMPTY_TURN"))
    case Stopped(Truncated(MaxTokens)) => Some(Tip(true, "ACP_EMPTY_TURN_MAX_TOKENS"))
    case Stopped(Truncated(MaxTurns)) => Some(Tip(true, "ACP_EMPTY_TURN_MAX_TURN_REQUESTS"))
    case Stopped(Refused) => Some(Tip(true, "ACP_EMPTY_TURN_REFUSAL"))
    case Stopped(_) => Some(Tip(true, "ACP_EMPTY_TURN"))
    case Failed => Some(Tip(true, "ACP_EMPTY_TURN"))
    case Aborted => None
  }

  /** Does this result end its turn with an error instead of a Finish? */
  predicate IsErrorResult(ev: Event)
    requires ev.TurnResult?
  {
    ev.isError && ev.outcome != Aborted && !IsBlankText(ev.resultText)
  }

  function Translate(ev: Event, terminalSeen: bool): Option<Frame> {
    match ev
    case MessageDelta(text) => Some(Text(text))
    case ThoughtDelta(text) => Some(Thinking(text))
    case ToolCall(id, name, input) =>
      Some(ToolFrame(ToolData(id, name, input, ToolRunning, Some(input), None, None)))
    case ToolResult(id, isError, output) =>
      Some(ToolFrame(ToolData(id, "", Null, if isError then ToolError else ToolCompleted, None, output, None)))
    case TurnResult(_, text, _) =>
      if IsErrorResult(ev) then Some(Error(UpstreamFailure(text))) else Some(Finish(None))
    case Detached(exit, summary) =>
      if Classify(terminalSeen, exit).Crashed? then Some(Error(Disconnected(exit, summary))) else Some(Finish(None))
    case Permission(id) => Some(PermissionFrame(id))
    case Plan => Some(PlanFrame)
    case Passing(aside) => Some(AsideFrame(aside))
    case _ => None
  }
}

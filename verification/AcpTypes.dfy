/** The values that cross the ACP host: ids, Core events, wire frames, Core commands. */
module AcpTypes {
  import opened Common

  datatype SessionId = SessionId(text: string)
  datatype RunId = RunId(text: string)
  datatype ToolCallId = ToolCallId(text: string)
  datatype JsonRpcId = NumberId(n: nat) | TextId(text: string) | NullId

  /** The sending half of one prompt's capacity-1 completion channel. */
  type Channel = nat

  datatype RunState =
    | Created | PreparingContext | WaitingForProvider | StreamingResponse
    | CollectingToolCalls | WaitingForApproval | ExecutingTools | AppendingToolResults
    | Completed | Cancelled | Failed | Interrupted

  predicate TerminalState(state: RunState) {
    state.Completed? || state.Cancelled? || state.Failed? || state.Interrupted?
  }

  datatype StopReason = EndTurn | StopCancelled
  datatype Resolution = Stopped(reason: StopReason) | TurnFailed

  function ResolutionOf(state: RunState): Option<Resolution> {
    match state
    case Completed => Some(Stopped(EndTurn))
    case Cancelled => Some(Stopped(StopCancelled))
    case Interrupted => Some(Stopped(StopCancelled))
    case Failed => Some(TurnFailed)
    case _ => None
  }

  /** Core events. `Unrelated` stands for the kinds that carry no run id and have no ACP form. */
  datatype AppEvent =
    | RunChanged(run: RunId, state: RunState)
    | AssistantDelta(run: RunId, message: string, delta: string)
    | ThinkingDelta(run: RunId, message: string, delta: string)
    | ToolStarted(run: RunId, tool: ToolCallId, name: string)
    | ToolOutput(run: RunId, tool: ToolCallId, delta: string)
    | ToolApprovalRequired(run: RunId, tool: ToolCallId, reason: string)
    | ToolCompleted(run: RunId, tool: ToolCallId, success: bool)
    | Diagnostic(code: string)
    | Unrelated(kind: string)

  datatype Stream = RunStream(run: RunId) | OtherStream

  datatype Envelope = Envelope(stream: Stream, payload: AppEvent)

  function RunIdOf(event: AppEvent): Option<RunId> {
    if event.Diagnostic? || event.Unrelated? then None else Some(event.run)
  }

  datatype SessionUpdate =
    | AgentMessageChunk(message: string, text: string)
    | AgentThoughtChunk(message: string, text: string)
    | ToolCallPending(tool: ToolCallId, title: string)
    | ToolCallInProgress(tool: ToolCallId, text: string)
    | ToolCallDone(tool: ToolCallId, success: bool)

  function TranslateSessionUpdate(event: AppEvent): Option<SessionUpdate> {
    match event
    case AssistantDelta(_, message, delta) => Some(AgentMessageChunk(message, delta))
    case ThinkingDelta(_, message, delta) => Some(AgentThoughtChunk(message, delta))
    case ToolStarted(_, tool, name) => Some(ToolCallPending(tool, name))
    case ToolOutput(_, tool, delta) => Some(ToolCallInProgress(tool, delta))
    case ToolCompleted(_, tool, success) => Some(ToolCallDone(tool, success))
    case _ => None
  }

  /** Frames written to the client. `run` names the cause; it is not part of the wire form. */
  datatype WireFrame =
    | UpdateFrame(session: SessionId, run: RunId, update: SessionUpdate)
    | PermissionFrame(id: JsonRpcId, session: SessionId, run: RunId, tool: ToolCallId, reason: string)
    | CancelNotice(id: JsonRpcId)

  /** One ordered outbox: frames, and the barrier that releases a prompt once they are written. */
  datatype OutboxItem =
    | Frame(frame: WireFrame)
    | FlushBarrier(run: RunId, completion: Channel, resolution: Resolution)

  datatype Decision = ApproveOnce | Deny | CancelTool

  /** A command handed to `dispatch_attached`, which may refuse it before Core is asked, as Core may after. */
  datatype Attempt =
    | RunCancel(session: SessionId, run: RunId)
    | ToolApprove(permission: JsonRpcId, session: SessionId, run: RunId, tool: ToolCallId, decision: Decision)

  /** What the client answered to `session/request_permission`. */
  datatype PermissionAnswer =
    | SelectedAllowOnce
    | SelectedRejectOnce
    | SelectedUnknownOption
    | OutcomeCancelled
    | Undecodable
    | ErrorRequestCancelled
    | ErrorOther

  function DecisionFor(answer: PermissionAnswer): Decision {
    match answer
    case SelectedAllowOnce => ApproveOnce
    case OutcomeCancelled => CancelTool
    case ErrorRequestCancelled => CancelTool
    case _ => Deny
  }
}

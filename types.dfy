/**
 * The records and enumerations of the application (types.ts), plus the
 * extra per-message flags ChatInterface.tsx adds (sources, isError,
 * isClarification).  An optional string field is a `string` whose empty
 * value stands for "absent": every place that reads one tests it for
 * truthiness, which treats the two alike.
 */
module Types {

  datatype Option<T> = None | Some(value: T)

  datatype MessageRole = User | Model | System

  datatype Category = Safety | Maintenance | Procedures | HR

  /** The category as it is spelled in the data and in the filter drop-down. */
  function CategoryName(c: Category): string {
    match c
    case Safety => "SAFETY"
    case Maintenance => "MAINTENANCE"
    case Procedures => "PROCEDURES"
    case HR => "HR"
  }

  datatype MediaKind = Image | Video

  /** A knowledge-base document; `mediaUrl` is "" when the document has no primary media. */
  datatype KnowledgeDoc = KnowledgeDoc(
    id: string,
    title: string,
    category: Category,
    content: string,
    lastUpdated: string,
    mediaUrl: string,
    mediaType: Option<MediaKind>,
    attachedImages: seq<string>)

  datatype Priority = Low | Medium | High | Critical

  datatype TicketStatus = Open | InProgress | Resolved

  datatype Ticket = Ticket(
    id: string,
    location: string,
    description: string,
    priority: Priority,
    status: TicketStatus,
    timestamp: string)

  datatype AuditActor = ActorUser | ActorSystem | ActorGuardrail

  datatype AuditAction =
    | Query | Response | ToolExecution | SecurityBlock
    | DataRetrieval | UserFeedback | KnowledgeGap

  datatype AuditStatus = Success | Blocked | Warning

  datatype AuditLogEntry = AuditLogEntry(
    id: string,
    timestamp: string,
    actor: AuditActor,
    action: AuditAction,
    details: string,
    status: AuditStatus,
    hash: string)

  datatype QuizOption = QuizOption(id: string, text: string, isCorrect: bool)

  datatype QuizData = QuizData(question: string, options: seq<QuizOption>, explanation: string)

  /** `label` in types.ts; `label` is a reserved word here. */
  datatype TelemetryItem = TelemetryItem(caption: string, value: int, unit: string, status: string)

  /** The widget payload, one variant per widget type (types.ts types it as `any`). */
  datatype WidgetPayload =
    | Checklist(steps: seq<string>)
    | Telemetry(items: seq<TelemetryItem>)
    | Quiz(quiz: QuizData)

  datatype Widget = Widget(title: string, payload: WidgetPayload)

  datatype MediaPayload = MediaPayload(urls: seq<string>, kind: MediaKind)

  datatype Feedback = Positive | Negative

  /** A chat message; `visualAttachment` is "" when no image was attached. */
  datatype Message = Message(
    id: string,
    role: MessageRole,
    text: string,
    timestamp: int,
    visualAttachment: string,
    ticket: Option<Ticket>,
    media: Option<MediaPayload>,
    widget: Option<Widget>,
    feedback: Option<Feedback>,
    sources: seq<string>,
    isError: bool,
    isClarification: bool)
}

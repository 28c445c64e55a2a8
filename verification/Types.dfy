/** The protocol's value types: tasks, messages, artifacts and events (ra2a/src/types). */
module Types {
  import opened Wrappers
  import opened JsonTree

  datatype TaskState =
    | Unspecified | Submitted | Working | Completed | Failed | Canceled
    | InputRequired | Rejected | AuthRequired
  {
    predicate IsTerminal() { Completed? || Failed? || Canceled? || Rejected? }
  }

  datatype Role = RoleUnspecified | User | Agent

  datatype PartContent = Text(text: string) | Raw(bytes: seq<bv8>) | Url(url: string) | Data(value: Json)

  datatype Part = Part(
    content: PartContent, metadata: Option<Metadata>, filename: Option<string>, mediaType: Option<string>)

  datatype Message = Message(
    id: string, contextId: Option<string>, taskId: Option<string>, role: Role, parts: seq<Part>,
    metadata: Option<Metadata>, extensions: seq<string>, referenceTaskIds: seq<string>)

  datatype Artifact = Artifact(
    artifactId: string, name: Option<string>, description: Option<string>, parts: seq<Part>,
    metadata: Option<Metadata>, extensions: seq<string>)

  datatype TaskStatus = TaskStatus(state: TaskState, message: Option<Message>, timestamp: Option<string>)

  datatype Task = Task(
    id: string, contextId: string, status: TaskStatus, artifacts: seq<Artifact>,
    history: seq<Message>, metadata: Option<Metadata>)
  {
    predicate IsTerminal() { status.state.IsTerminal() }
  }

  /** `TaskStatus::new`; the clock reading is a parameter. */
  function NewStatus(state: TaskState, now: string): TaskStatus {
    TaskStatus(state, None, Some(now))
  }

  /** `Task::new`: a submitted task without content. */
  function NewTask(id: string, contextId: string, now: string): Task {
    Task(id, contextId, NewStatus(Submitted, now), [], [], None)
  }

  datatype StatusUpdate = StatusUpdate(taskId: string, contextId: string, status: TaskStatus)

  datatype ArtifactUpdate = ArtifactUpdate(
    taskId: string, contextId: string, artifact: Artifact, append: bool, lastChunk: bool)

  datatype Event =
    | TaskEvent(task: Task)
    | MessageEvent(message: Message)
    | StatusEvent(update: StatusUpdate)
    | ArtifactEvent(chunk: ArtifactUpdate)
  {
    /** `StreamResponse::task_id`; the empty string stands for a message without a task. */
    function TaskId(): string {
      match this
      case TaskEvent(t) => t.id
      case MessageEvent(m) => m.taskId.UnwrapOr("")
      case StatusEvent(e) => e.taskId
      case ArtifactEvent(e) => e.taskId
    }

    predicate IsTerminal() {
      match this
      case TaskEvent(t) => t.IsTerminal()
      case MessageEvent(_) => true
      case StatusEvent(e) => e.status.state.IsTerminal()
      case ArtifactEvent(_) => false
    }
  }

  datatype Response = TaskResponse(task: Task) | MessageResponse(message: Message)
}

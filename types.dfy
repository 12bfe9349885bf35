/** The value records of types.ts. Every record is immutable once built; the hub
    replaces a whole collection on each mutation. */
module Types {

  datatype Option<+T> = None | Some(value: T)

  /** `LogLevel` (types.ts:2-8). */
  datatype LogLevel = Info | Warn | Error | Debug | Success

  /** A log entry's origin tag: 'CLI' | 'API' | 'SYSTEM'. */
  datatype Source = CLI | API | SYSTEM

  /** Entry identifiers. The hub's generated ids (random base-36 strings in
      monitor.ts) are modelled as serial numbers from a counter; the two seeded saved
      commands carry the literal ids 'default-1' and 'default-2'. */
  datatype Id = Named(name: string) | Fresh(serial: nat)

  /** Log metadata is an untyped object in types.ts; here it is a list of
      key/value pairs whose values are strings, numbers, or a duration that
      Playground.tsx renders as the string "<n>ms". */
  datatype MetaValue = Text(text: string) | Number(number: int) | Millis(ms: int)
  type Metadata = seq<(string, MetaValue)>

  datatype LogEntry = LogEntry(
    id: Id,
    timestamp: int,
    level: LogLevel,
    message: string,
    metadata: Option<Metadata>,
    source: Source)

  datatype MetricPoint = MetricPoint(timestamp: int, latency: int, tokens: int, model: string)

  /** Run status 'IDLE' | 'RUNNING' | 'ERROR'. */
  datatype Status = Idle | Running | Errored

  /** `CLIState`; a `null` current command is `None`. */
  datatype CLIState = CLIState(
    status: Status,
    currentCommand: Option<string>,
    selectedModel: string,
    apiKeyConfigured: bool,
    version: string)

  /** `Partial<CLIState>`: `None` marks a field the partial object does not name.
      For `currentCommand`, `Some(None)` is an explicit `null`. */
  datatype StatePatch = StatePatch(
    status: Option<Status>,
    currentCommand: Option<Option<string>>,
    selectedModel: Option<string>,
    apiKeyConfigured: Option<bool>,
    version: Option<string>)

  /** Chat author: 'user' | 'model' | 'system'. */
  datatype Role = User | Model | System

  datatype ChatMessage = ChatMessage(id: Id, role: Role, text: string, timestamp: int, error: bool)

  datatype SavedCommand = SavedCommand(id: Id, name: string, prompt: string, createdAt: int)
}

/** The durable entities of the orchestrator: job rows, lease rows, events and the tables that hold them.

    A content hash is represented by the hashed content itself, so equal hashes mean equal content. The three
    snapshot columns of a job row are functions of one snapshot and always written together, so they are one
    field. Timestamps are integers. */
module Types {

  datatype Option<+T> = None | Some(value: T)

  type JobId = string

  datatype JobState =
    Queued | Running | NeedsGuidance | PrOpen | Reviewing | Blocked | Failed | Canceled | Done

  const ACTIVE: set<JobState> := {Running, Reviewing}

  /** The states a job may move to from `from` according to the transition table. */
  function Allowed(from: JobState): set<JobState> {
    match from
    case Queued => {Running, NeedsGuidance, PrOpen, Blocked, Failed, Canceled}
    case Running => {Queued, NeedsGuidance, PrOpen, Blocked, Failed, Canceled}
    case NeedsGuidance => {Queued, Canceled, Failed}
    case PrOpen => {Queued, Reviewing, Done, Canceled}
    case Reviewing => {PrOpen, Queued, Done, Failed, Canceled}
    case Blocked => {Queued, Canceled}
    case Failed => {Queued, Canceled}
    case Canceled => {Queued}
    case Done => {}
  }

  datatype Content = Content(repository: string, number: int, title: string, body: string)

  datatype Snapshot = Snapshot(
    repository: string, number: int, title: string, body: string, state: string, labels: set<string>,
    updatedAt: int)
  {
    function ContentHash(): Content {
      Content(repository, number, title, body)
    }
  }

  datatype Routing = Routing(implementer: string, reviewRequired: bool, reviewer: Option<string>)

  datatype Job = Job(
    id: JobId, repository: string, issue: int, snapshot: Snapshot, routing: Routing, state: JobState,
    attempt: nat, branch: string, key: string, conversation: Option<string>,
    reviewConversation: Option<string>, prNumber: Option<int>, phase: string, validation: string,
    leaseOwner: Option<string>, leaseExpiresAt: Option<int>, createdAt: int, updatedAt: int,
    retry: bool, cancel: bool, pause: bool)

  datatype Lease = Lease(jobId: JobId, owner: string, expiresAt: int)

  datatype Command = Pause | Resume | Retry | Cancel | Unknown(name: string)

  /** The kinds of job events. `Moved.notes` are the free texts stored with a transition. */
  datatype EventKind =
    | Created
    | Claimed
    | AttemptStarted(attempt: nat)
    | Moved(from: JobState, to: JobState, phase: Option<string>, notes: seq<string>)
    | Controlled(command: Command, reset: bool)
    | LeaseExpired
    | SnapshotAccepted
    | Noted(name: string)

  datatype Event = Event(jobId: JobId, at: int, kind: EventKind)

  datatype Lock = Lock(owner: string, expiresAt: int)

  /** All tables. Leases are keyed by concurrency key, backoff by provider, locks by name. */
  datatype Db = Db(
    jobs: map<JobId, Job>, leases: map<string, Lease>, events: seq<Event>, deliveries: set<string>,
    backoff: map<string, int>, locks: map<string, Lock>)

  const EMPTY := Db(map[], map[], [], {}, map[], map[])
}

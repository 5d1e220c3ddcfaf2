/** The durable documents and journal records that autonomous_kernel/store.py reads and writes. */
module KernelDocuments {
  import opened Prelude

  datatype RootState =
    | BOOTSTRAP | DISCOVERY | RESEARCH | EXPERIMENT | BUILD | VALIDATE | DEPLOY
    | OBSERVE | REFLECT | INCIDENT | SUSPENDED | PARKED | REJECTED

  datatype TaskStatus = Ready | InProgress | Completed | Blocked | Rejected

  datatype Task = Task(
    id: string, status: TaskStatus, priorityScore: real, dependsOn: seq<string>, updatedAt: string)

  datatype CurrentState = CurrentState(rootState: RootState, nextTaskId: Option<string>, updatedAt: string)

  datatype ResumePointer = ResumePointer(
    rootState: RootState, nextTaskId: Option<string>, activeTaskIds: seq<string>,
    lastTransitionId: Option<string>, checkpoint: string, updatedAt: string)

  datatype Backlog = Backlog(items: seq<Task>, updatedAt: string)

  /** A stored JSON document. `Foreign` is any document of another shape, known only by the
      normalised field names found anywhere inside it. */
  datatype Document =
    | CurrentDocument(current: CurrentState)
    | ResumeDocument(resume: ResumePointer)
    | BacklogDocument(backlog: Backlog)
    | Foreign(fieldNames: set<string>)

  datatype Record =
    | TransitionRecord(id: string, previousState: RootState, newState: RootState,
                       trigger: string, evidence: seq<string>, decisionId: string, createdAt: string)
    | CompletionRecord(id: string, status: string, completedAt: string,
                       writePaths: seq<string>, appendPaths: seq<string>)

  const FORBIDDEN_SECRET_FIELDS: set<string> := {
    "private_key", "seed_phrase", "mnemonic", "secret_value", "password", "api_key", "credential_value"
  }

  predicate HasForbiddenField(d: Document) {
    d.Foreign? && d.fieldNames * FORBIDDEN_SECRET_FIELDS != {}
  }

  function AllowedFrom(state: RootState): set<RootState> {
    match state
    case BOOTSTRAP => {DISCOVERY, INCIDENT, SUSPENDED}
    case DISCOVERY => {RESEARCH, INCIDENT, SUSPENDED, PARKED}
    case RESEARCH => {EXPERIMENT, REJECTED, PARKED, INCIDENT, SUSPENDED}
    case EXPERIMENT => {BUILD, EXPERIMENT, REJECTED, PARKED, INCIDENT, SUSPENDED}
    case BUILD => {VALIDATE, INCIDENT, SUSPENDED, REJECTED}
    case VALIDATE => {DEPLOY, BUILD, REJECTED, SUSPENDED, INCIDENT}
    case DEPLOY => {OBSERVE, INCIDENT, SUSPENDED}
    case OBSERVE => {REFLECT, INCIDENT, SUSPENDED}
    case REFLECT => {DISCOVERY, RESEARCH, EXPERIMENT, BUILD, OBSERVE, SUSPENDED, REJECTED}
    case INCIDENT => {BUILD, VALIDATE, OBSERVE, SUSPENDED}
    case SUSPENDED => {DISCOVERY, RESEARCH, BUILD, VALIDATE, OBSERVE, REJECTED}
    case PARKED => {DISCOVERY, RESEARCH, REJECTED}
    case REJECTED => {DISCOVERY, RESEARCH}
  }
}

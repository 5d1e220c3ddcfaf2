/** The root-state machine and the task pointer of autonomous_kernel/store.py, and what every run
    of operations, stops and recoveries keeps. */
module KernelState {
  import opened Prelude
  import opened Sorting
  import opened KernelDocuments
  import opened Transactions
  import opened CrashRecovery

  // ------------------------------------------------------------------ task selection

  function CompletedIds(items: seq<Task>): set<string> {
    set i | 0 <= i < |items| && items[i].status.Completed? :: items[i].id
  }

  predicate Eligible(item: Task, completed: set<string>) {
    item.status.Ready? && forall i :: 0 <= i < |item.dependsOn| ==> item.dependsOn[i] in completed
  }

  /** The sort key of _next_from_items: highest score first, then the smaller id. */
  predicate RanksBefore(a: Task, b: Task) {
    a.priorityScore > b.priorityScore || (a.priorityScore == b.priorityScore && TextLe(a.id, b.id))
  }

  function NextAmong(items: seq<Task>, completed: set<string>): Option<Task> {
    if items == [] then None
    else
      var rest := NextAmong(items[1..], completed);
      if !Eligible(items[0], completed) then rest
      else if rest.None? || RanksBefore(items[0], rest.value) then Some(items[0])
      else rest
  }

  function NextFromItems(items: seq<Task>): Option<Task> {
    NextAmong(items, CompletedIds(items))
  }

  function NextId(items: seq<Task>): Option<string> {
    match NextFromItems(items)
    case None => None
    case Some(t) => Some(t.id)
  }

  lemma RanksBeforeTransitive(a: Task, b: Task, c: Task)
    requires RanksBefore(a, b) && RanksBefore(b, c)
    ensures RanksBefore(a, c)
  {
    if a.priorityScore == b.priorityScore == c.priorityScore {
      TextLeTransitive(a.id, b.id, c.id);
    }
  }

  lemma RanksBeforeTotal(a: Task, b: Task)
    ensures RanksBefore(a, b) || RanksBefore(b, a)
  {
    TextLeTotal(a.id, b.id);
  }

  lemma {:induction false} NextAmongIsBest(items: seq<Task>, completed: set<string>)
    ensures NextAmong(items, completed).None? <==> forall t :: t in items ==> !Eligible(t, completed)
    ensures NextAmong(items, completed).Some? ==>
      var best := NextAmong(items, completed).value;
      && best in items && Eligible(best, completed)
      && forall t :: t in items && Eligible(t, completed) ==> RanksBefore(best, t)
  {
    if items != [] {
      NextAmongIsBest(items[1..], completed);
      var rest := NextAmong(items[1..], completed);
      assert forall t :: t in items <==> t == items[0] || t in items[1..];
      if Eligible(items[0], completed) {
        RanksBeforeTotal(items[0], items[0]);
        if rest.Some? {
          RanksBeforeTotal(items[0], rest.value);
          forall t | t in items[1..] && Eligible(t, completed) && RanksBefore(items[0], rest.value)
            ensures RanksBefore(items[0], t)
          {
            RanksBeforeTransitive(items[0], rest.value, t);
          }
        }
      }
    }
  }

  /** The next task is a ready task with every dependency completed, and no such task has a
      higher score, or the same score and a smaller id. There is none only if no task is ready. */
  lemma NextIsBestReady(items: seq<Task>)
    ensures
      var done := CompletedIds(items);
      match NextFromItems(items)
      case None => forall t :: t in items ==> !Eligible(t, done)
      case Some(best) =>
        && best in items && Eligible(best, done)
        && forall t :: t in items && Eligible(t, done) ==>
             best.priorityScore > t.priorityScore
             || (best.priorityScore == t.priorityScore && TextLe(best.id, t.id))
  {
    NextAmongIsBest(items, CompletedIds(items));
  }

  // ------------------------------------------------------------------ the sorted active list

  function SortedText(s: seq<string>): seq<string> {
    Sorted(s, TextLe)
  }

  function ActiveIds(items: seq<Task>): seq<string> {
    if items == [] then []
    else (if items[0].status.InProgress? then [items[0].id] else []) + ActiveIds(items[1..])
  }

  // ------------------------------------------------------------------ validate

  predicate WellTyped(d: Disk) {
    && CURRENT_PATH in d.documents && d.documents[CURRENT_PATH].CurrentDocument?
    && RESUME_PATH in d.documents && d.documents[RESUME_PATH].ResumeDocument?
    && BACKLOG_PATH in d.documents && d.documents[BACKLOG_PATH].BacklogDocument?
    && TRANSITIONS_PATH in d.journals && TRANSACTIONS_PATH in d.journals
  }

  function Current(d: Disk): CurrentState requires WellTyped(d) { d.documents[CURRENT_PATH].current }

  function Resume(d: Disk): ResumePointer requires WellTyped(d) { d.documents[RESUME_PATH].resume }

  function Items(d: Disk): seq<Task> requires WellTyped(d) { d.documents[BACKLOG_PATH].backlog.items }

  predicate TaskIdsValid(items: seq<Task>) {
    && (forall i :: 0 <= i < |items| ==> items[i].id != "")
    && (forall i, j :: 0 <= i < j < |items| ==> items[i].id != items[j].id)
  }

  predicate DependenciesKnown(items: seq<Task>) {
    forall i, k :: 0 <= i < |items| && 0 <= k < |items[i].dependsOn| ==>
      exists j :: 0 <= j < |items| && items[j].id == items[i].dependsOn[k]
  }

  predicate IsTask(items: seq<Task>, id: string) {
    exists i :: 0 <= i < |items| && items[i].id == id
  }

  /** The pointer checks of validate: resume agrees with current and with the backlog. */
  predicate PointersAgree(current: CurrentState, resume: ResumePointer, items: seq<Task>)
  {
    && (current.nextTaskId.Some? ==> IsTask(items, current.nextTaskId.value))
    && resume.nextTaskId == current.nextTaskId
    && SortedText(resume.activeTaskIds) == SortedText(ActiveIds(items))
  }

  predicate Validate(d: Disk) {
    && d.pending.None?
    && WellTyped(d)
    && TaskIdsValid(Items(d))
    && DependenciesKnown(Items(d))
    && PointersAgree(Current(d), Resume(d), Items(d))
  }

  // ------------------------------------------------------------------ operations

  datatype Refusal = InvalidState | TransitionNotAllowed | EvidenceRequired | UnknownTask

  datatype TransitionRequest = TransitionRequest(
    newState: RootState, trigger: string, decisionId: string, evidence: seq<string>,
    at: string, recordId: string, transactionId: string)

  function TransitionEntry(previous: RootState, q: TransitionRequest): Record {
    TransitionRecord(q.recordId, previous, q.newState, q.trigger, q.evidence, q.decisionId, q.at)
  }

  function PlanTransition(d: Disk, q: TransitionRequest): Result<Transaction, Refusal> {
    if !Validate(d) then Err(InvalidState)
    else
      var current, resume := Current(d), Resume(d);
      if q.newState !in AllowedFrom(current.rootState) then Err(TransitionNotAllowed)
      else if Blank(q.trigger) || Blank(q.decisionId) || q.evidence == [] then Err(EvidenceRequired)
      else Ok(Transaction(1, q.transactionId, "prepared",
        [Write(CURRENT_PATH, CurrentDocument(current.(rootState := q.newState, updatedAt := q.at))),
         Write(RESUME_PATH, ResumeDocument(resume.(rootState := q.newState, updatedAt := q.at,
                                                   lastTransitionId := Some(q.recordId),
                                                   checkpoint := q.trigger)))],
        [Append(TRANSITIONS_PATH, TransitionEntry(current.rootState, q))]))
  }

  datatype TaskUpdate = TaskUpdate(taskId: string, status: TaskStatus, at: string, transactionId: string)

  /** The first task with that id gets the status. */
  function WithStatus(items: seq<Task>, u: TaskUpdate): seq<Task> {
    if items == [] then []
    else if items[0].id == u.taskId then
      [items[0].(status := u.status, updatedAt := u.at)] + items[1..]
    else [items[0]] + WithStatus(items[1..], u)
  }

  function PlanUpdate(d: Disk, u: TaskUpdate): Result<Transaction, Refusal> {
    if !Validate(d) then Err(InvalidState)
    else if !IsTask(Items(d), u.taskId) then Err(UnknownTask)
    else
      var items := WithStatus(Items(d), u);
      var next := NextId(items);
      Ok(Transaction(1, u.transactionId, "prepared",
        [Write(BACKLOG_PATH, BacklogDocument(Backlog(items, u.at))),
         Write(CURRENT_PATH, CurrentDocument(Current(d).(nextTaskId := next, updatedAt := u.at))),
         Write(RESUME_PATH, ResumeDocument(Resume(d).(nextTaskId := next, updatedAt := u.at,
                                                      activeTaskIds := SortedText(ActiveIds(items)))))],
        []))
  }

  datatype Operation =
    | Transit(request: TransitionRequest, completedAt: string, budget: nat)
    | Update(update: TaskUpdate, completedAt: string, budget: nat)
    | Recovery(attempt: Attempt)

  function Plan(d: Disk, op: Operation): Result<Transaction, Refusal>
    requires !op.Recovery?
  {
    if op.Transit? then PlanTransition(d, op.request) else PlanUpdate(d, op.update)
  }

  /** One call, stopped after at most its budget of durable steps. */
  function Step(d: Disk, op: Operation): Disk {
    if op.Recovery? then Recover(d, op.attempt)
    else match Plan(d, op)
      case Err(_) => d
      case Ok(t) => ExecuteUpTo(CommitScript(t, op.completedAt), op.budget, d)
  }

  function Run(d: Disk, ops: seq<Operation>): Disk
    decreases |ops|
  {
    if ops == [] then d else Run(Step(d, ops[0]), ops[1..])
  }

  // ------------------------------------------------------------------ the whole-run invariant

  /** The transition journal is one path of allowed transitions that ends at `end`. */
  ghost predicate PathTo(log: seq<Record>, end: RootState) {
    && (forall i :: 0 <= i < |log| ==>
          log[i].TransitionRecord? && log[i].newState in AllowedFrom(log[i].previousState))
    && (forall i :: 0 < i < |log| ==> log[i].previousState == log[i - 1].newState)
    && (log != [] ==> log[|log| - 1].newState == end)
  }

  ghost predicate Healthy(d: Disk) {
    && Validate(d)
    && Resume(d).rootState == Current(d).rootState
    && PathTo(Journal(d, TRANSITIONS_PATH), Current(d).rootState)
  }

  ghost predicate NextTaskIsBest(d: Disk) {
    WellTyped(d) && Current(d).nextTaskId == NextId(Items(d))
  }

  /** The disk as it will be once a pending transaction is rolled forward. */
  function Settled(d: Disk): Disk {
    if d.pending.None? then d
    else Execute(ApplyScript(d.pending.value), d).(pending := None)
  }

  ghost predicate RunInvariant(d: Disk) {
    && (d.pending.Some? ==> Recoverable(d.pending.value) && Admissible(d.pending.value))
    && Healthy(Settled(d))
  }

  /** Equal except for the bookkeeping of completions. */
  ghost predicate SameKernel(a: Disk, b: Disk) {
    && a.documents == b.documents
    && a.pending == b.pending
    && Journal(a, TRANSITIONS_PATH) == Journal(b, TRANSITIONS_PATH)
    && (TRANSITIONS_PATH in a.journals <==> TRANSITIONS_PATH in b.journals)
    && (TRANSACTIONS_PATH in b.journals ==> TRANSACTIONS_PATH in a.journals)
  }

  lemma {:induction false} SettledMidway(e: Disk, pre: Disk, t: Transaction, done: Option<Record>)
    requires pre.pending.None? && Midway(e, pre, t, done)
    ensures SameKernel(Settled(e), Execute(ApplyScript(t), pre))
    ensures e.pending == Some(t)
  {
    ApplyScriptApplies(t);
    ApplyIgnoresPending(ApplyScript(t), pre, Some(t));
    ApplyKeeps(ApplyScript(t), pre);
  }

  lemma {:induction false} SettledCommitted(pre: Disk, t: Transaction, c: Record)
    requires pre.pending.None?
    ensures SameKernel(Settled(Committed(pre, t, c)), Execute(ApplyScript(t), pre))
    ensures Committed(pre, t, c).pending.None?
  {
    CommittedIsClean(pre, t, c);
    ApplyScriptApplies(t);
    ApplyKeeps(ApplyScript(t), pre);
  }

  /** A recovery, stopped or finished, settles to the same kernel. */
  lemma RecoverySettles(d: Disk, attempt: Attempt)
    ensures SameKernel(Settled(Recover(d, attempt)), Settled(d))
    ensures Recover(d, attempt).pending in [None, d.pending]
  {
    if d.pending.Some? {
      var t := d.pending.value;
      var pre := d.(pending := None);
      assert pre.(pending := Some(t)) == d;
      assert Midway(d, pre, t, None);
      ApplyScriptApplies(t);
      ApplyIgnoresPending(ApplyScript(t), pre, Some(t));
      ApplyKeeps(ApplyScript(t), pre);
      var after, finished := RecoverFromMidway(d, pre, t, None, attempt);
      if finished {
        SettledCommitted(pre, t, after.value);
      } else {
        SettledMidway(Recover(d, attempt), pre, t, after);
      }
    }
  }

  /** A commit, stopped or finished, settles to the old kernel or to the applied one. */
  lemma {:induction false} CommitSettles(d: Disk, t: Transaction, at: string, budget: nat)
    requires d.pending.None?
    ensures
      var e := ExecuteUpTo(CommitScript(t, at), budget, d);
      if budget == 0 then e == d
      else SameKernel(Settled(e), Execute(ApplyScript(t), d)) && e.pending in [None, Some(t)]
  {
    if budget > 0 {
      var k := Min(budget, |CommitScript(t, at)|);
      var done, finished := CommitPrefix(d, t, at, k);
      if finished {
        SettledCommitted(d, t, done.value);
      } else {
        SettledMidway(Execute(CommitScript(t, at)[..k], d), d, t, done);
      }
    }
  }

  lemma HealthySame(a: Disk, b: Disk)
    requires SameKernel(a, b) && Healthy(b)
    ensures Healthy(a)
    ensures NextTaskIsBest(b) ==> NextTaskIsBest(a)
  {
  }

  // ------------------------------------------------------------------ each operation keeps it

  lemma {:induction false} ExecuteTwo(a: Action, b: Action, d: Disk)
    ensures Execute([a, b], d) == Perform(b, Perform(a, d))
  {
    assert [a, b][..1] == [a];
    assert Execute([a], d) == Perform(a, Execute([a][..0], d));
  }

  lemma {:induction false} ExecuteThree(a: Action, b: Action, c: Action, d: Disk)
    ensures Execute([a, b, c], d) == Perform(c, Perform(b, Perform(a, d)))
  {
    assert [a, b, c][..2] == [a, b];
    ExecuteTwo(a, b, d);
  }

  lemma {:induction false} TransitionApplies(d: Disk, q: TransitionRequest)
    requires PlanTransition(d, q).Ok? && q.recordId != ""
    ensures
      var t := PlanTransition(d, q).value;
      var a, b, c := t.writes[0], t.writes[1], t.appends[0];
      && Admissible(t) && |t.writes| == 2 && |t.appends| == 1
      && Execute(ApplyScript(t), d)
         == Perform(AppendOnce(c.path, c.record),
              Perform(WriteDocument(b.path, b.document), Perform(WriteDocument(a.path, a.document), d)))
  {
    var t := PlanTransition(d, q).value;
    var a, b, c := t.writes[0], t.writes[1], t.appends[0];
    assert ApplyScript(t)
        == [WriteDocument(a.path, a.document), WriteDocument(b.path, b.document), AppendOnce(c.path, c.record)];
    ExecuteThree(WriteDocument(a.path, a.document), WriteDocument(b.path, b.document), AppendOnce(c.path, c.record), d);
  }

  /** The two documents and the one record that a transition leaves. */
  ghost predicate Moved(d: Disk, q: TransitionRequest, e: Disk)
    requires WellTyped(d)
  {
    && WellTyped(e) && e.pending == d.pending && Items(e) == Items(d)
    && Current(e) == Current(d).(rootState := q.newState, updatedAt := q.at)
    && Resume(e) == Resume(d).(rootState := q.newState, updatedAt := q.at,
                               lastTransitionId := Some(q.recordId), checkpoint := q.trigger)
    && Journal(e, TRANSITIONS_PATH) == Journal(d, TRANSITIONS_PATH) + [TransitionEntry(Current(d).rootState, q)]
  }

  lemma WritesKeepShape(d: Disk, current: CurrentState, resume: ResumePointer, e: Disk)
    requires WellTyped(d)
    requires e == Perform(WriteDocument(RESUME_PATH, ResumeDocument(resume)),
                    Perform(WriteDocument(CURRENT_PATH, CurrentDocument(current)), d))
    ensures WellTyped(e) && Current(e) == current && Resume(e) == resume && Items(e) == Items(d)
    ensures e.pending == d.pending && e.journals == d.journals
  {
  }

  lemma AppendKeepsShape(d: Disk, record: Record, e: Disk)
    requires WellTyped(d) && record.id != "" && !HasId(Journal(d, TRANSITIONS_PATH), record.id)
    requires e == Perform(AppendOnce(TRANSITIONS_PATH, record), d)
    ensures WellTyped(e) && e.documents == d.documents && e.pending == d.pending
    ensures Journal(e, TRANSITIONS_PATH) == Journal(d, TRANSITIONS_PATH) + [record]
  {
  }

  lemma {:induction false} TransitionMoves(d: Disk, q: TransitionRequest)
    requires PlanTransition(d, q).Ok? && q.recordId != "" && !HasId(Journal(d, TRANSITIONS_PATH), q.recordId)
    ensures Moved(d, q, Execute(ApplyScript(PlanTransition(d, q).value), d))
  {
    TransitionApplies(d, q);
    var t := PlanTransition(d, q).value;
    var first := WriteDocument(CURRENT_PATH, t.writes[0].document);
    var second := WriteDocument(RESUME_PATH, t.writes[1].document);
    var written := Perform(second, Perform(first, d));
    WritesKeepShape(d, t.writes[0].document.current, t.writes[1].document.resume, written);
    AppendKeepsShape(written, t.appends[0].record, Perform(AppendOnce(TRANSITIONS_PATH, t.appends[0].record), written));
  }

  lemma PathGrows(log: seq<Record>, end: RootState, record: Record)
    requires PathTo(log, end) && record.TransitionRecord?
    requires record.previousState == end && record.newState in AllowedFrom(end)
    ensures PathTo(log + [record], record.newState)
  {
  }

  lemma MovedIsValid(d: Disk, q: TransitionRequest, e: Disk)
    requires Validate(d) && Moved(d, q, e)
    ensures Validate(e) && Resume(e).rootState == Current(e).rootState
  {
    assert PointersAgree(Current(d), Resume(d), Items(d));
    assert PointersAgree(Current(e), Resume(e), Items(e));
  }

  lemma {:induction false} TransitionHealthy(d: Disk, q: TransitionRequest)
    requires Healthy(d) && PlanTransition(d, q).Ok?
    requires q.recordId != "" && !HasId(Journal(d, TRANSITIONS_PATH), q.recordId)
    ensures
      var e := Execute(ApplyScript(PlanTransition(d, q).value), d);
      && Healthy(e)
      && Current(e).rootState == q.newState
      && Journal(e, TRANSITIONS_PATH)
         == Journal(d, TRANSITIONS_PATH) + [TransitionEntry(Current(d).rootState, q)]
      && Items(e) == Items(d) && Current(e).nextTaskId == Current(d).nextTaskId
  {
    var e := Execute(ApplyScript(PlanTransition(d, q).value), d);
    TransitionMoves(d, q);
    MovedIsValid(d, q, e);
    PathGrows(Journal(d, TRANSITIONS_PATH), Current(d).rootState, TransitionEntry(Current(d).rootState, q));
  }

  lemma {:induction false} WithStatusKeepsIds(items: seq<Task>, u: TaskUpdate)
    ensures |WithStatus(items, u)| == |items|
    ensures forall i :: 0 <= i < |items| ==>
      WithStatus(items, u)[i].id == items[i].id && WithStatus(items, u)[i].dependsOn == items[i].dependsOn
  {
    if items != [] && items[0].id != u.taskId {
      WithStatusKeepsIds(items[1..], u);
    }
  }

  lemma NextIdIsTask(items: seq<Task>)
    ensures NextId(items).Some? ==> IsTask(items, NextId(items).value)
  {
    NextIsBestReady(items);
  }

  lemma {:induction false} UpdateApplies(d: Disk, u: TaskUpdate)
    requires PlanUpdate(d, u).Ok?
    ensures
      var t := PlanUpdate(d, u).value;
      && Admissible(t) && |t.writes| == 3
      && Execute(ApplyScript(t), d)
         == Perform(WriteDocument(RESUME_PATH, t.writes[2].document),
              Perform(WriteDocument(CURRENT_PATH, t.writes[1].document),
                Perform(WriteDocument(BACKLOG_PATH, t.writes[0].document), d)))
  {
    var t := PlanUpdate(d, u).value;
    var a, b, c := t.writes[0].document, t.writes[1].document, t.writes[2].document;
    assert ApplyScript(t)
        == [WriteDocument(BACKLOG_PATH, a), WriteDocument(CURRENT_PATH, b), WriteDocument(RESUME_PATH, c)];
    ExecuteThree(WriteDocument(BACKLOG_PATH, a), WriteDocument(CURRENT_PATH, b), WriteDocument(RESUME_PATH, c), d);
  }

  lemma DependenciesStay(before: seq<Task>, after: seq<Task>)
    requires |after| == |before|
    requires forall i :: 0 <= i < |before| ==> after[i].id == before[i].id && after[i].dependsOn == before[i].dependsOn
    requires forall i, k :: 0 <= i < |before| && 0 <= k < |before[i].dependsOn| ==>
      exists j :: 0 <= j < |before| && before[j].id == before[i].dependsOn[k]
    ensures forall i, k :: 0 <= i < |after| && 0 <= k < |after[i].dependsOn| ==>
      exists j :: 0 <= j < |after| && after[j].id == after[i].dependsOn[k]
  {
    forall i, k | 0 <= i < |after| && 0 <= k < |after[i].dependsOn|
      ensures exists j :: 0 <= j < |after| && after[j].id == after[i].dependsOn[k]
    {
      var j :| 0 <= j < |before| && before[j].id == before[i].dependsOn[k];
      assert after[j].id == after[i].dependsOn[k];
    }
  }

  lemma {:induction false} UpdateHealthy(d: Disk, u: TaskUpdate)
    requires Healthy(d) && PlanUpdate(d, u).Ok?
    ensures
      var e := Execute(ApplyScript(PlanUpdate(d, u).value), d);
      && Healthy(e) && NextTaskIsBest(e)
      && Items(e) == WithStatus(Items(d), u)
      && Current(e).rootState == Current(d).rootState
      && Journal(e, TRANSITIONS_PATH) == Journal(d, TRANSITIONS_PATH)
  {
    UpdateApplies(d, u);
    var items := WithStatus(Items(d), u);
    WithStatusKeepsIds(Items(d), u);
    NextIdIsTask(items);
    TextLeIsTotalPreorder();
    SortedOrdered(ActiveIds(items), TextLe);
    SortingOrderedChangesNothing(SortedText(ActiveIds(items)), TextLe);
    DependenciesStay(Items(d), items);
  }

  /** The ids a run draws from uuid4 are new when they are drawn. */
  ghost predicate FreshIds(d: Disk, op: Operation) {
    && (op.Transit? ==> op.request.recordId != "" && op.request.transactionId != ""
                        && !HasId(Journal(d, TRANSITIONS_PATH), op.request.recordId))
    && (op.Update? ==> op.update.transactionId != "")
  }

  ghost predicate FreshAlong(d: Disk, ops: seq<Operation>)
    decreases |ops|
  {
    ops == [] || (FreshIds(d, ops[0]) && FreshAlong(Step(d, ops[0]), ops[1..]))
  }

  /** A commit of an admissible transaction that leads to a healthy disk, stopped anywhere, keeps the invariant. */
  lemma {:induction false} CommitKeepsInvariant(d: Disk, t: Transaction, at: string, budget: nat)
    requires d.pending.None? && budget > 0 && Recoverable(t) && Admissible(t) && Healthy(Execute(ApplyScript(t), d))
    ensures
      var e := ExecuteUpTo(CommitScript(t, at), budget, d);
      RunInvariant(e) && (NextTaskIsBest(Execute(ApplyScript(t), d)) ==> NextTaskIsBest(Settled(e)))
  {
    CommitSettles(d, t, at, budget);
    HealthySame(Settled(ExecuteUpTo(CommitScript(t, at), budget, d)), Execute(ApplyScript(t), d));
  }

  lemma TransitKeepsInvariant(d: Disk, q: TransitionRequest, at: string, budget: nat)
    requires Healthy(d) && PlanTransition(d, q).Ok? && budget > 0
    requires q.recordId != "" && q.transactionId != "" && !HasId(Journal(d, TRANSITIONS_PATH), q.recordId)
    ensures
      var e := ExecuteUpTo(CommitScript(PlanTransition(d, q).value, at), budget, d);
      RunInvariant(e) && (NextTaskIsBest(d) ==> NextTaskIsBest(Settled(e)))
  {
    TransitionApplies(d, q);
    TransitionHealthy(d, q);
    CommitKeepsInvariant(d, PlanTransition(d, q).value, at, budget);
  }

  lemma UpdateKeepsInvariant(d: Disk, u: TaskUpdate, at: string, budget: nat)
    requires Healthy(d) && PlanUpdate(d, u).Ok? && budget > 0 && u.transactionId != ""
    ensures
      var e := ExecuteUpTo(CommitScript(PlanUpdate(d, u).value, at), budget, d);
      RunInvariant(e) && NextTaskIsBest(Settled(e))
  {
    UpdateApplies(d, u);
    UpdateHealthy(d, u);
    CommitKeepsInvariant(d, PlanUpdate(d, u).value, at, budget);
  }

  lemma StepKeepsInvariant(d: Disk, op: Operation)
    requires RunInvariant(d) && FreshIds(d, op)
    ensures RunInvariant(Step(d, op))
    ensures NextTaskIsBest(Settled(d)) ==> NextTaskIsBest(Settled(Step(d, op)))
    ensures op.Update? && Plan(d, op).Ok? && op.budget > 0 ==> NextTaskIsBest(Settled(Step(d, op)))
  {
    if op.Recovery? {
      RecoverySettles(d, op.attempt);
      HealthySame(Settled(Step(d, op)), Settled(d));
    } else if Plan(d, op).Ok? {
      if op.budget == 0 {
        CommitSettles(d, Plan(d, op).value, op.completedAt, 0);
      } else if op.Transit? {
        TransitKeepsInvariant(d, op.request, op.completedAt, op.budget);
      } else {
        UpdateKeepsInvariant(d, op.update, op.completedAt, op.budget);
      }
    }
  }

  /** Whatever operations, stops and recoveries a run holds: at every moment without a pending
      transaction the journal is an allowed path to the current root state and resume agrees with
      current and the backlog; with one, rolling it forward restores exactly that. */
  lemma {:induction false} RunKeepsInvariant(d: Disk, ops: seq<Operation>)
    requires RunInvariant(d) && FreshAlong(d, ops)
    ensures RunInvariant(Run(d, ops))
    ensures Run(d, ops).pending.None? ==> Healthy(Run(d, ops))
    ensures NextTaskIsBest(Settled(d)) ==> NextTaskIsBest(Settled(Run(d, ops)))
    decreases |ops|
  {
    if ops != [] {
      StepKeepsInvariant(d, ops[0]);
      RunKeepsInvariant(Step(d, ops[0]), ops[1..]);
    }
  }

  /** A pending transaction of a run can always be recovered. */
  lemma {:induction false} RunIsRecoverable(d: Disk, ops: seq<Operation>, at: string)
    requires RunInvariant(d) && FreshAlong(d, ops)
    ensures Healthy(RecoverFully(Run(d, ops), at))
  {
    RunKeepsInvariant(d, ops);
    var e := Run(d, ops);
    var script := RecoverScript(e, at);
    assert script[..|script|] == script;
    RecoverySettles(e, Attempt(|script|, at));
    if e.pending.Some? {
      var pre := e.(pending := None);
      assert pre.(pending := Some(e.pending.value)) == e;
      assert Midway(e, pre, e.pending.value, None);
      var after, finished := RecoverFromMidway(e, pre, e.pending.value, None, Attempt(|script|, at));
      CommittedIsClean(pre, e.pending.value, after.value);
    }
    HealthySame(Settled(RecoverFully(e, at)), Settled(e));
  }
}

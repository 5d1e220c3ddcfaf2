/** autonomous_kernel/store.py as it runs: an object over the state directory whose methods take
    durable steps one at a time. `budget` is the number of steps the process still gets to take;
    a method that runs out of it stops where it stands. */
module KernelStore {
  import opened Prelude
  import opened KernelDocuments
  import opened Transactions
  import opened CrashRecovery
  import opened KernelState

  datatype Outcome = Done | Stopped | Refused(reason: Refusal) | PendingExists | EntryRefused | InvalidJournal

  /** A script run under a budget: what is left of disk and budget, and how it ended. */
  ghost predicate Ran(script: seq<Action>, whole: bool, steps: nat, start: Disk, now: Disk, left: int, outcome: Outcome) {
    && now == ExecuteUpTo(script, steps, start)
    && left == steps - Min(steps, |script|)
    && outcome == if steps < |script| then Stopped else if whole then Done else EntryRefused
  }

  /** The first i steps of a script are done. */
  ghost predicate Running(script: seq<Action>, i: int, steps: nat, start: Disk, now: Disk, left: int) {
    0 <= i <= |script| && now == Execute(script[..i], start) && left == steps - i && left >= 0
  }

  lemma RunStarts(script: seq<Action>, steps: nat, start: Disk)
    ensures Running(script, 0, steps, start, start, steps)
  {
  }

  lemma RunGoesOn(script: seq<Action>, i: nat, steps: nat, start: Disk, now: Disk, left: int, after: Disk)
    requires Running(script, i, steps, start, now, left) && i < |script| && left > 0 && after == Perform(script[i], now)
    ensures Running(script, i + 1, steps, start, after, left - 1)
  {
    assert script[..i + 1][..i] == script[..i];
  }

  lemma RunStops(script: seq<Action>, i: nat, steps: nat, start: Disk, now: Disk, whole: bool)
    requires Running(script, i, steps, start, now, 0) && i < |script|
    ensures Ran(script, whole, steps, start, now, 0, Stopped)
  {
  }

  lemma RunEnds(script: seq<Action>, i: nat, steps: nat, start: Disk, now: Disk, left: int, whole: bool)
    requires Running(script, i, steps, start, now, left) && i == |script|
    ensures Ran(script, whole, steps, start, now, left, if whole then Done else EntryRefused)
  {
  }

  lemma FirstThenRest(a: Action, rest: seq<Action>, steps: nat, d: Disk)
    ensures ExecuteUpTo([a] + rest, steps, d)
         == if steps == 0 then d else ExecuteUpTo(rest, steps - 1, Perform(a, d))
  {
    var script := [a] + rest;
    if steps == 0 {
      assert script[..0] == [];
    } else {
      var k := Min(steps - 1, |rest|);
      assert script[..k + 1] == [a] + rest[..k];
      ExecuteConcat([a], rest[..k], d);
      assert [a][..0] == [] && Execute([a], d) == Perform(a, Execute([a][..0], d));
    }
  }

  /** A commit prepares first; what is left then is the tail it shares with a recovery. */
  lemma CommitFromPrepare(t: Transaction, completedAt: string, steps: nat, d: Disk)
    ensures |CommitScript(t, completedAt)| == |FinishScript(t, "completed", completedAt)| + 1
    ensures ExecuteUpTo(CommitScript(t, completedAt), steps, d)
         == if steps == 0 then d
            else ExecuteUpTo(FinishScript(t, "completed", completedAt), steps - 1, Perform(Prepare(t), d))
  {
    FirstThenRest(Prepare(t), FinishScript(t, "completed", completedAt), steps, d);
  }

  class Repository {
    var documents: map<string, Document>
    var journals: map<string, seq<Record>>
    var pending: Option<Transaction>
    var budget: nat

    ghost function State(): Disk
      reads this
    {
      Disk(documents, journals, pending)
    }

    constructor (disk: Disk, steps: nat)
      ensures State() == disk && budget == steps
    {
      documents, journals, pending, budget := disk.documents, disk.journals, disk.pending, steps;
    }

    method AtomicWriteJson(path: string, document: Document) returns (alive: bool)
      modifies this
      ensures alive == (old(budget) > 0)
      ensures State() == if alive then Perform(WriteDocument(path, document), old(State())) else old(State())
      ensures budget == if alive then old(budget) - 1 else 0
    {
      if budget == 0 {
        return false;
      }
      documents := documents[path := document];
      budget := budget - 1;
      return true;
    }

    /** Scans the journal for the id first; an id already there costs a step but appends nothing. */
    method AppendJsonlOnce(path: string, record: Record) returns (alive: bool)
      modifies this
      ensures alive == (old(budget) > 0)
      ensures State() == if alive then Perform(AppendOnce(path, record), old(State())) else old(State())
      ensures budget == if alive then old(budget) - 1 else 0
    {
      if budget == 0 {
        return false;
      }
      var log := if path in journals then journals[path] else [];
      var found := false;
      var i := 0;
      while i < |log| && !found
        invariant 0 <= i <= |log|
        invariant found ==> HasId(log, record.id)
        invariant !found ==> forall j :: 0 <= j < i ==> log[j].id != record.id
        decreases |log| - i, !found
      {
        if log[i].id == record.id {
          found := true;
        } else {
          i := i + 1;
        }
      }
      assert found <==> HasId(log, record.id);
      if !found {
        log := log + [record];
      }
      journals := journals[path := log];
      budget := budget - 1;
      return true;
    }

    method WritePending(t: Transaction) returns (alive: bool)
      modifies this
      ensures alive == (old(budget) > 0)
      ensures State() == if alive then Perform(Prepare(t), old(State())) else old(State())
      ensures budget == if alive then old(budget) - 1 else 0
    {
      if budget == 0 {
        return false;
      }
      pending, budget := Some(t), budget - 1;
      return true;
    }

    method UnlinkPending() returns (alive: bool)
      modifies this
      ensures alive == (old(budget) > 0)
      ensures State() == if alive then Perform(Clear, old(State())) else old(State())
      ensures budget == if alive then old(budget) - 1 else 0
    {
      if budget == 0 {
        return false;
      }
      pending, budget := None, budget - 1;
      return true;
    }

    method ApplyWrites(writes: seq<Write>) returns (outcome: Outcome)
      modifies this
      ensures Ran(WriteScript(writes), |WriteScript(writes)| == |writes|, old(budget), old(State()), State(), budget, outcome)
    {
      ghost var script, whole := WriteScript(writes), |WriteScript(writes)| == |writes|;
      ghost var start, steps := State(), budget;
      RunStarts(script, steps, start);
      var i := 0;
      while i < |writes|
        invariant 0 <= i <= |writes| && Running(script, i, steps, start, State(), budget)
      {
        WriteScriptAt(writes, i);
        if !WriteAllowed(writes[i]) {
          RunEnds(script, i, steps, start, State(), budget, whole);
          return EntryRefused;
        }
        ghost var now, left := State(), budget;
        var alive := AtomicWriteJson(writes[i].path, writes[i].document);
        if !alive {
          RunStops(script, i, steps, start, State(), whole);
          return Stopped;
        }
        RunGoesOn(script, i, steps, start, now, left, State());
        i := i + 1;
      }
      RunEnds(script, i, steps, start, State(), budget, whole);
      return Done;
    }

    method ApplyAppends(appends: seq<Append>) returns (outcome: Outcome)
      modifies this
      ensures Ran(AppendScript(appends), |AppendScript(appends)| == |appends|, old(budget), old(State()), State(), budget, outcome)
    {
      ghost var script, whole := AppendScript(appends), |AppendScript(appends)| == |appends|;
      ghost var start, steps := State(), budget;
      RunStarts(script, steps, start);
      var i := 0;
      while i < |appends|
        invariant 0 <= i <= |appends| && Running(script, i, steps, start, State(), budget)
      {
        AppendScriptAt(appends, i);
        if !AppendAllowed(appends[i]) {
          RunEnds(script, i, steps, start, State(), budget, whole);
          return EntryRefused;
        }
        ghost var now, left := State(), budget;
        var alive := AppendJsonlOnce(appends[i].path, appends[i].record);
        if !alive {
          RunStops(script, i, steps, start, State(), whole);
          return Stopped;
        }
        RunGoesOn(script, i, steps, start, now, left, State());
        i := i + 1;
      }
      RunEnds(script, i, steps, start, State(), budget, whole);
      return Done;
    }

    /** _apply_transaction: the writes, then the appends, each checked just before it is made. */
    method ApplyTransaction(t: Transaction) returns (outcome: Outcome)
      modifies this
      ensures State() == ExecuteUpTo(ApplyScript(t), old(budget), old(State()))
      ensures budget == old(budget) - Min(old(budget), |ApplyScript(t)|)
      ensures outcome == if old(budget) < |ApplyScript(t)| then Stopped
                         else if Admissible(t) then Done else EntryRefused
    {
      ghost var start, steps := State(), budget;
      outcome := ApplyWrites(t.writes);
      if outcome.Done? {
        outcome := ApplyAppends(t.appends);
        ExecuteUpToConcat(WriteScript(t.writes), AppendScript(t.appends), steps, start);
      } else if steps < |WriteScript(t.writes)| {
        assert ApplyScript(t)[..steps] == WriteScript(t.writes)[..steps];
      }
    }

    /** The tail shared by commit and recovery: apply, journal the completion, unlink. */
    method FinishTransaction(t: Transaction, status: string, completedAt: string) returns (outcome: Outcome)
      modifies this
      ensures State() == ExecuteUpTo(FinishScript(t, status, completedAt), old(budget), old(State()))
      ensures outcome == if old(budget) < |FinishScript(t, status, completedAt)| then Stopped
                         else if Admissible(t) then Done else EntryRefused
    {
      ghost var start, steps := State(), budget;
      outcome := ApplyTransaction(t);
      if outcome.Done? {
        var completion := Completion(t, status, completedAt);
        FinishTail(ApplyScript(t), AppendOnce(TRANSACTIONS_PATH, completion), steps, start);
        var alive := AppendJsonlOnce(TRANSACTIONS_PATH, completion);
        if !alive {
          return Stopped;
        }
        alive := UnlinkPending();
        if !alive {
          return Stopped;
        }
      } else if Admissible(t) {
        FinishEarly(ApplyScript(t), FinishScript(t, status, completedAt), steps);
      }
    }

    method CommitTransaction(t: Transaction, completedAt: string) returns (outcome: Outcome)
      modifies this
      ensures old(pending).Some? ==> outcome == PendingExists && State() == old(State())
      ensures old(pending).None? ==>
        && State() == ExecuteUpTo(CommitScript(t, completedAt), old(budget), old(State()))
        && outcome == if old(budget) < |CommitScript(t, completedAt)| then Stopped
                      else if Admissible(t) then Done else EntryRefused
    {
      if pending.Some? {
        return PendingExists;
      }
      CommitFromPrepare(t, completedAt, budget, State());
      var alive := WritePending(t);
      if !alive {
        return Stopped;
      }
      outcome := FinishTransaction(t, "completed", completedAt);
    }

    /** recover_pending: roll a prepared transaction forward. */
    method RecoverPending(completedAt: string) returns (outcome: Outcome)
      modifies this
      ensures State() == Recover(old(State()), Attempt(old(budget), completedAt))
      ensures outcome == if old(pending).None? then Done
                         else if !Recoverable(old(pending).value) then InvalidJournal
                         else if old(budget) < |RecoverScript(old(State()), completedAt)| then Stopped
                         else if Admissible(old(pending).value) then Done else EntryRefused
    {
      if pending.None? {
        return Done;
      }
      var t := pending.value;
      if t.schemaVersion != 1 || t.status != "prepared" || t.id == "" {
        return InvalidJournal;
      }
      outcome := FinishTransaction(t, "recovered", completedAt);
    }

    /** transition: plan on the stored documents, then commit. */
    method Transition(q: TransitionRequest, completedAt: string) returns (outcome: Outcome)
      modifies this
      ensures State() == Step(old(State()), Transit(q, completedAt, old(budget)))
      ensures PlanTransition(old(State()), q).Err? ==>
        outcome == Refused(PlanTransition(old(State()), q).error) && State() == old(State())
    {
      if !Validate(Disk(documents, journals, pending)) {
        return Refused(InvalidState);
      }
      var current := documents[CURRENT_PATH].current;
      var resume := documents[RESUME_PATH].resume;
      var previous := current.rootState;
      if q.newState !in AllowedFrom(previous) {
        return Refused(TransitionNotAllowed);
      }
      if Blank(q.trigger) || Blank(q.decisionId) || q.evidence == [] {
        return Refused(EvidenceRequired);
      }
      var record := TransitionEntry(previous, q);
      current := current.(rootState := q.newState);
      current := current.(updatedAt := q.at);
      resume := resume.(rootState := q.newState);
      resume := resume.(updatedAt := q.at);
      resume := resume.(lastTransitionId := Some(record.id));
      resume := resume.(checkpoint := q.trigger);
      var t := Transaction(1, q.transactionId, "prepared",
        [Write(CURRENT_PATH, CurrentDocument(current)), Write(RESUME_PATH, ResumeDocument(resume))],
        [Append(TRANSITIONS_PATH, record)]);
      outcome := CommitTransaction(t, completedAt);
    }

    /** update_task: find the task, set its status, refresh the pointers, commit. */
    method UpdateTask(u: TaskUpdate, completedAt: string) returns (outcome: Outcome)
      modifies this
      ensures State() == Step(old(State()), Update(u, completedAt, old(budget)))
      ensures PlanUpdate(old(State()), u).Err? ==>
        outcome == Refused(PlanUpdate(old(State()), u).error) && State() == old(State())
    {
      if !Validate(Disk(documents, journals, pending)) {
        return Refused(InvalidState);
      }
      var items := documents[BACKLOG_PATH].backlog.items;
      var i := 0;
      while i < |items| && items[i].id != u.taskId
        invariant 0 <= i <= |items|
        invariant forall j :: 0 <= j < i ==> items[j].id != u.taskId
      {
        i := i + 1;
      }
      if i == |items| {
        return Refused(UnknownTask);
      }
      WithStatusAt(items, u, i);
      assert IsTask(items, u.taskId);
      items := items[i := items[i].(status := u.status, updatedAt := u.at)];
      var next := NextId(items);
      var current := documents[CURRENT_PATH].current.(nextTaskId := next, updatedAt := u.at);
      var resume := documents[RESUME_PATH].resume.(nextTaskId := next, updatedAt := u.at,
                                                   activeTaskIds := SortedText(ActiveIds(items)));
      var t := Transaction(1, u.transactionId, "prepared",
        [Write(BACKLOG_PATH, BacklogDocument(Backlog(items, u.at))),
         Write(CURRENT_PATH, CurrentDocument(current)),
         Write(RESUME_PATH, ResumeDocument(resume))], []);
      outcome := CommitTransaction(t, completedAt);
    }
  }

  lemma {:induction false} WriteScriptAt(writes: seq<Write>, i: nat)
    requires i < |writes| && i <= |WriteScript(writes)|
    ensures WriteAllowed(writes[i]) <==> i < |WriteScript(writes)|
    ensures i < |WriteScript(writes)| ==> WriteScript(writes)[i] == WriteDocument(writes[i].path, writes[i].document)
  {
  }

  lemma {:induction false} AppendScriptAt(appends: seq<Append>, i: nat)
    requires i < |appends| && i <= |AppendScript(appends)|
    ensures AppendAllowed(appends[i]) <==> i < |AppendScript(appends)|
    ensures i < |AppendScript(appends)| ==>
      AppendScript(appends)[i] == AppendOnce(appends[i].path, appends[i].record)
  {
  }

  /** Two scripts in a row share one budget. */
  lemma ExecuteUpToConcat(a: seq<Action>, b: seq<Action>, budget: nat, d: Disk)
    requires budget >= |a|
    ensures ExecuteUpTo(a + b, budget, d) == ExecuteUpTo(b, budget - |a|, ExecuteUpTo(a, budget, d))
  {
    var k := Min(budget - |a|, |b|);
    assert a[..|a|] == a;
    assert (a + b)[..|a| + k] == a + b[..k];
    ExecuteConcat(a, b[..k], d);
  }

  lemma FinishTail(apply: seq<Action>, log: Action, steps: nat, d: Disk)
    requires steps >= |apply|
    ensures
      var applied := ExecuteUpTo(apply, steps, d);
      ExecuteUpTo(apply + [log, Clear], steps, d)
      == if steps == |apply| then applied
         else if steps == |apply| + 1 then Perform(log, applied)
         else Perform(Clear, Perform(log, applied))
  {
    assert apply[..|apply|] == apply;
    ExecuteTwoMore(apply, log, Clear, d);
    if steps == |apply| {
      assert (apply + [log, Clear])[..steps] == apply;
    }
  }

  lemma FinishEarly(apply: seq<Action>, finish: seq<Action>, steps: nat)
    requires steps < |apply| <= |finish| && apply == finish[..|apply|]
    ensures finish[..steps] == apply[..steps]
  {
  }

  /** Setting the status of the first match is one update in place. */
  lemma {:induction false} WithStatusAt(items: seq<Task>, u: TaskUpdate, i: nat)
    requires i < |items| && items[i].id == u.taskId
    requires forall j :: 0 <= j < i ==> items[j].id != u.taskId
    ensures WithStatus(items, u) == items[i := items[i].(status := u.status, updatedAt := u.at)]
  {
    if i > 0 {
      assert items[1..][i - 1] == items[i];
      WithStatusAt(items[1..], u, i - 1);
      assert items == [items[0]] + items[1..];
    }
  }
}

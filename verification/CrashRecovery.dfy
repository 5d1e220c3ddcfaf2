/** Crash atomicity: a commit stopped at any durable step, followed by any number of stopped
    recoveries and one finished recovery, leaves either the old disk or the committed one. */
module CrashRecovery {
  import opened Prelude
  import opened KernelDocuments
  import opened Transactions

  /** One call of recover_pending that may take at most `budget` durable steps. */
  datatype Attempt = Attempt(budget: nat, completedAt: string)

  function Recover(d: Disk, attempt: Attempt): Disk {
    ExecuteUpTo(RecoverScript(d, attempt.completedAt), attempt.budget, d)
  }

  function RecoverFully(d: Disk, completedAt: string): Disk {
    Execute(RecoverScript(d, completedAt), d)
  }

  function RecoverAll(attempts: seq<Attempt>, d: Disk): Disk {
    if attempts == [] then d else RecoverAll(attempts[1..], Recover(d, attempts[0]))
  }

  /** The disk once every write and append of `t` is in place and `completion` is journaled. */
  function Committed(pre: Disk, t: Transaction, completion: Record): Disk {
    Perform(AppendOnce(TRANSACTIONS_PATH, completion), Execute(ApplyScript(t), pre))
  }

  ghost predicate CompletionOf(t: Transaction, r: Record) {
    exists status, at | status in ["completed", "recovered"] :: r == Completion(t, status, at)
  }

  // ------------------------------------------------------------------ the states in between

  function Target(pre: Disk, t: Transaction, done: Option<Record>): Disk {
    var applied := Execute(ApplyScript(t), pre.(pending := Some(t)));
    if done.None? then applied else Perform(AppendOnce(TRANSACTIONS_PATH, done.value), applied)
  }

  /** A disk from which rolling `t` forward reaches the target. */
  ghost predicate Midway(d: Disk, pre: Disk, t: Transaction, done: Option<Record>) {
    && d.pending == Some(t)
    && Execute(ApplyScript(t), d) == Target(pre, t, done)
    && (done.Some? ==> CompletionOf(t, done.value))
  }

  lemma {:induction false} ApplyCommutes(script: seq<Action>, d: Disk, r: Record)
    requires Applies(script)
    ensures Execute(script, Perform(AppendOnce(TRANSACTIONS_PATH, r), d))
         == Perform(AppendOnce(TRANSACTIONS_PATH, r), Execute(script, d))
  {
    if script != [] {
      var n := |script| - 1;
      ApplyCommutes(script[..n], d, r);
      StepCommutes(script[n], Execute(script[..n], d), r);
    }
  }

  lemma StepCommutes(a: Action, d: Disk, r: Record)
    requires a.WriteDocument? || (a.AppendOnce? && a.path != TRANSACTIONS_PATH)
    ensures Perform(a, Perform(AppendOnce(TRANSACTIONS_PATH, r), d)) == Perform(AppendOnce(TRANSACTIONS_PATH, r), Perform(a, d))
  {
    assert Perform(a, Perform(AppendOnce(TRANSACTIONS_PATH, r), d)).journals
        == Perform(AppendOnce(TRANSACTIONS_PATH, r), Perform(a, d)).journals;
  }

  lemma {:induction false} ApplyIgnoresPending(script: seq<Action>, d: Disk, p: Option<Transaction>)
    requires Applies(script)
    ensures Execute(script, d.(pending := p)) == Execute(script, d).(pending := p)
  {
    if script != [] {
      ApplyIgnoresPending(script[..|script| - 1], d, p);
    }
  }

  lemma SecondCompletionIgnored(d: Disk, t: Transaction, a: Record, b: Record)
    requires CompletionOf(t, a) && CompletionOf(t, b)
    ensures Perform(AppendOnce(TRANSACTIONS_PATH, b), Perform(AppendOnce(TRANSACTIONS_PATH, a), d))
         == Perform(AppendOnce(TRANSACTIONS_PATH, a), d)
  {
    JournalsGrow(AppendOnce(TRANSACTIONS_PATH, a), d);
    var e := Perform(AppendOnce(TRANSACTIONS_PATH, a), d);
    assert e.journals[TRANSACTIONS_PATH := e.journals[TRANSACTIONS_PATH]] == e.journals;
  }

  lemma {:induction false} ApplyFromMidway(d: Disk, pre: Disk, t: Transaction, done: Option<Record>, k: nat)
    requires Midway(d, pre, t, done) && k <= |ApplyScript(t)|
    ensures Midway(Execute(ApplyScript(t)[..k], d), pre, t, done)
  {
    ApplyScriptApplies(t);
    ReapplyAfterPrefix(ApplyScript(t), k, d);
    ApplyKeeps(ApplyScript(t)[..k], d);
  }

  /** Once everything is applied, the completion is journaled unless one already is. */
  lemma {:induction false} LogFromMidway(d: Disk, pre: Disk, t: Transaction, done: Option<Record>, mine: Record)
    requires Midway(d, pre, t, done) && CompletionOf(t, mine)
    ensures
      var c := if done.Some? then done.value else mine;
      var logged := Perform(AppendOnce(TRANSACTIONS_PATH, mine), Execute(ApplyScript(t), d));
      && logged == Target(pre, t, Some(c))
      && Midway(logged, pre, t, Some(c))
  {
    var apply := ApplyScript(t);
    var applied := Execute(apply, d);
    var c := if done.Some? then done.value else mine;
    if done.Some? {
      SecondCompletionIgnored(Execute(apply, pre.(pending := Some(t))), t, c, mine);
    }
    ApplyScriptApplies(t);
    ApplyCommutes(apply, applied, mine);
    PrefixIdempotent(apply, d);
    ApplyKeeps(apply, d);
  }

  lemma ClearTarget(pre: Disk, t: Transaction, c: Record)
    requires pre.pending.None?
    ensures Perform(Clear, Target(pre, t, Some(c))) == Committed(pre, t, c)
  {
    ApplyScriptApplies(t);
    ApplyIgnoresPending(ApplyScript(t), pre, Some(t));
    ApplyKeeps(ApplyScript(t), pre);
  }

  lemma {:induction false} ExecuteTwoMore(script: seq<Action>, a: Action, b: Action, d: Disk)
    ensures Execute((script + [a, b])[..|script| + 1], d) == Perform(a, Execute(script, d))
    ensures Execute((script + [a, b])[..|script| + 2], d) == Perform(b, Perform(a, Execute(script, d)))
  {
    assert (script + [a, b])[..|script| + 1][..|script|] == script;
    assert (script + [a, b])[..|script| + 2][..|script| + 1] == (script + [a, b])[..|script| + 1];
  }

  /** What finishing `t` leaves after k steps: still midway, or committed. */
  ghost predicate Progress(e: Disk, pre: Disk, t: Transaction, before: Option<Record>, mine: Record, k: nat) {
    var c := if before.Some? then before.value else mine;
    var n := |ApplyScript(t)|;
    if k <= n then Midway(e, pre, t, before)
    else if k == n + 1 then Midway(e, pre, t, Some(c))
    else e == Committed(pre, t, c)
  }

  /** Rolling forward may be stopped after any step and loses nothing. */
  lemma {:induction false} FinishFromMidway(d: Disk, pre: Disk, t: Transaction, done: Option<Record>,
                         status: string, at: string, k: nat)
    requires Midway(d, pre, t, done) && pre.pending.None? && status in ["completed", "recovered"]
    requires k <= |FinishScript(t, status, at)|
    ensures Progress(Execute(FinishScript(t, status, at)[..k], d), pre, t, done, Completion(t, status, at), k)
  {
    var mine := Completion(t, status, at);
    assert CompletionOf(t, mine);
    FinishSteps(d, pre, t, done, mine, FinishScript(t, status, at), k);
  }

  lemma {:induction false} FinishSteps(d: Disk, pre: Disk, t: Transaction, done: Option<Record>,
                    mine: Record, finish: seq<Action>, k: nat)
    requires Midway(d, pre, t, done) && pre.pending.None? && CompletionOf(t, mine)
    requires finish == ApplyScript(t) || finish == ApplyScript(t) + [AppendOnce(TRANSACTIONS_PATH, mine), Clear]
    requires k <= |finish|
    ensures Progress(Execute(finish[..k], d), pre, t, done, mine, k)
  {
    if k <= |ApplyScript(t)| {
      assert finish[..k] == ApplyScript(t)[..k];
      ApplyFromMidway(d, pre, t, done, k);
    } else {
      LoggedProgress(d, pre, t, done, mine, k);
    }
  }

  lemma {:induction false} LoggedProgress(d: Disk, pre: Disk, t: Transaction, done: Option<Record>, mine: Record, k: nat)
    requires Midway(d, pre, t, done) && pre.pending.None? && CompletionOf(t, mine)
    requires |ApplyScript(t)| < k <= |ApplyScript(t)| + 2
    ensures
      var c, finish := if done.Some? then done.value else mine, ApplyScript(t) + [AppendOnce(TRANSACTIONS_PATH, mine), Clear];
      var e := Execute(finish[..k], d);
      if k == |ApplyScript(t)| + 1 then Midway(e, pre, t, Some(c)) else e == Committed(pre, t, c)
  {
    ExecuteTwoMore(ApplyScript(t), AppendOnce(TRANSACTIONS_PATH, mine), Clear, d);
    LogFromMidway(d, pre, t, done, mine);
    ClearTarget(pre, t, if done.Some? then done.value else mine);
  }

  lemma RecoverFromMidway(d: Disk, pre: Disk, t: Transaction, done: Option<Record>, attempt: Attempt)
    returns (after: Option<Record>, finished: bool)
    requires Midway(d, pre, t, done) && pre.pending.None?
    ensures finished ==> after.Some? && CompletionOf(t, after.value)
                         && Recover(d, attempt) == Committed(pre, t, after.value)
    ensures !finished ==> Midway(Recover(d, attempt), pre, t, after)
    ensures finished <==>
      Recoverable(t) && Admissible(t) && attempt.budget >= |RecoverScript(d, attempt.completedAt)|
  {
    var script := RecoverScript(d, attempt.completedAt);
    var k := Min(attempt.budget, |script|);
    after, finished := done, false;
    if Recoverable(t) {
      var mine := Completion(t, "recovered", attempt.completedAt);
      assert CompletionOf(t, mine);
      FinishFromMidway(d, pre, t, done, "recovered", attempt.completedAt, k);
      if k > |ApplyScript(t)| && done.None? {
        after := Some(mine);
      }
      finished := k == |ApplyScript(t)| + 2;
    }
  }

  lemma {:induction false} RecoverAllFromMidway(attempts: seq<Attempt>, d: Disk, pre: Disk, t: Transaction,
                                                done: Option<Record>)
    returns (after: Option<Record>, finished: bool)
    requires Midway(d, pre, t, done) && pre.pending.None?
    ensures finished ==> after.Some? && CompletionOf(t, after.value) && Recoverable(t) && Admissible(t)
                         && RecoverAll(attempts, d) == Committed(pre, t, after.value)
    ensures !finished ==> Midway(RecoverAll(attempts, d), pre, t, after)
  {
    if attempts == [] {
      return done, false;
    }
    after, finished := RecoverFromMidway(d, pre, t, done, attempts[0]);
    if finished {
      CommittedIsClean(pre, t, after.value);
      CleanStaysPut(attempts[1..], Committed(pre, t, after.value));
    } else {
      after, finished := RecoverAllFromMidway(attempts[1..], Recover(d, attempts[0]), pre, t, after);
    }
  }

  lemma CommittedIsClean(pre: Disk, t: Transaction, c: Record)
    requires pre.pending.None?
    ensures Committed(pre, t, c).pending.None?
  {
    ApplyScriptApplies(t);
    ApplyKeeps(ApplyScript(t), pre);
  }

  lemma {:induction false} CleanStaysPut(attempts: seq<Attempt>, d: Disk)
    requires d.pending.None?
    ensures RecoverAll(attempts, d) == d
  {
    if attempts != [] {
      CleanStaysPut(attempts[1..], d);
    }
  }

  /** A commit that has taken k >= 1 steps has prepared the transaction. */
  lemma CommitPrefix(pre: Disk, t: Transaction, at: string, k: nat)
    returns (done: Option<Record>, finished: bool)
    requires pre.pending.None? && 1 <= k <= |CommitScript(t, at)|
    ensures finished <==> Admissible(t) && k == |CommitScript(t, at)|
    ensures finished ==> done == Some(Completion(t, "completed", at))
                         && Execute(CommitScript(t, at)[..k], pre) == Committed(pre, t, done.value)
    ensures !finished ==> Midway(Execute(CommitScript(t, at)[..k], pre), pre, t, done)
  {
    var script, finish := CommitScript(t, at), FinishScript(t, "completed", at);
    var prepared := pre.(pending := Some(t));
    assert script[..k] == [Prepare(t)] + finish[..k - 1];
    ExecuteConcat([Prepare(t)], finish[..k - 1], pre);
    assert Execute([Prepare(t)], pre) == prepared;
    assert Midway(prepared, pre, t, None);
    FinishFromMidway(prepared, pre, t, None, "completed", at, k - 1);
    done := if k - 1 > |ApplyScript(t)| then Some(Completion(t, "completed", at)) else None;
    finished := k - 1 == |ApplyScript(t)| + 2;
  }

  // ------------------------------------------------------------------ the main theorem

  /** All or nothing, whatever stops happen on the way. */
  lemma {:induction false} CrashAtomicity(pre: Disk, t: Transaction, at: string, k: nat, attempts: seq<Attempt>, finalAt: string)
    requires pre.pending.None? && Recoverable(t) && Admissible(t)
    requires k <= |CommitScript(t, at)|
    ensures
      var stopped := Execute(CommitScript(t, at)[..k], pre);
      var final := RecoverFully(RecoverAll(attempts, stopped), finalAt);
      if k == 0 then final == pre
      else exists c :: CompletionOf(t, c) && final == Committed(pre, t, c)
  {
    var stopped := Execute(CommitScript(t, at)[..k], pre);
    if k == 0 {
      CleanStaysPut(attempts, pre);
    } else {
      var done, finished := CommitPrefix(pre, t, at, k);
      if finished {
        CommittedIsClean(pre, t, done.value);
        CleanStaysPut(attempts, stopped);
        assert CompletionOf(t, done.value);
      } else {
        done, finished := RecoverAllFromMidway(attempts, stopped, pre, t, done);
        var d := RecoverAll(attempts, stopped);
        if finished {
          CommittedIsClean(pre, t, done.value);
        } else {
          var last := Attempt(|RecoverScript(d, finalAt)|, finalAt);
          assert RecoverScript(d, finalAt)[..|RecoverScript(d, finalAt)|] == RecoverScript(d, finalAt);
          done, finished := RecoverFromMidway(d, pre, t, done, last);
        }
        assert CompletionOf(t, done.value);
      }
    }
  }

  /** A journal with an entry that _apply_transaction refuses blocks every recovery: the pending
      file stays, no completion is written, and the disk never gets past the refused entry. */
  lemma {:induction false} InadmissibleBlocksForever(pre: Disk, t: Transaction, at: string, k: nat, attempts: seq<Attempt>)
    requires pre.pending.None? && !(Recoverable(t) && Admissible(t))
    requires 1 <= k <= |CommitScript(t, at)|
    requires !Admissible(t) || k < |CommitScript(t, at)|
    ensures RecoverAll(attempts, Execute(CommitScript(t, at)[..k], pre)).pending == Some(t)
  {
    var done, finished := CommitPrefix(pre, t, at, k);
    done, finished := RecoverAllFromMidway(attempts, Execute(CommitScript(t, at)[..k], pre), pre, t, done);
  }

  // ------------------------------------------------------------------ what the committed disk holds

  function CountId(log: seq<Record>, id: string): nat {
    if log == [] then 0
    else CountId(log[..|log| - 1], id) + (if log[|log| - 1].id == id then 1 else 0)
  }

  lemma {:induction false} CountIdPositive(log: seq<Record>, id: string)
    ensures CountId(log, id) > 0 <==> HasId(log, id)
  {
    if log != [] {
      var n := |log| - 1;
      CountIdPositive(log[..n], id);
      if HasId(log[..n], id) {
        var i :| 0 <= i < n && log[..n][i].id == id;
        assert log[i].id == id;
      }
      if HasId(log, id) && log[n].id != id {
        var i :| 0 <= i < |log| && log[i].id == id;
        assert log[..n][i].id == id;
      }
    }
  }

  ghost predicate UniqueIds(d: Disk) {
    forall p, id :: CountId(Journal(d, p), id) <= 1
  }

  lemma {:induction false} ExecuteKeepsUnique(script: seq<Action>, d: Disk)
    requires UniqueIds(d)
    ensures UniqueIds(Execute(script, d))
  {
    if script != [] {
      var n := |script| - 1;
      ExecuteKeepsUnique(script[..n], d);
      var m, e := Execute(script[..n], d), Execute(script, d);
      forall p, id ensures CountId(Journal(e, p), id) <= 1 {
        if script[n].AppendOnce? && p == script[n].path {
          CountIdPositive(Journal(m, p), id);
          assert Journal(e, p) != Journal(m, p) ==> Journal(e, p)[..|Journal(e, p)| - 1] == Journal(m, p);
        } else {
          assert Journal(e, p) == Journal(m, p);
        }
      }
    }
  }

  lemma {:induction false} CommittedAsScript(pre: Disk, t: Transaction, c: Record)
    ensures Committed(pre, t, c) == Execute(ApplyScript(t) + [AppendOnce(TRANSACTIONS_PATH, c)], pre)
  {
    var log := [AppendOnce(TRANSACTIONS_PATH, c)];
    ExecuteConcat(ApplyScript(t), log, pre);
    assert Execute(log[..0], Execute(ApplyScript(t), pre)) == Execute(ApplyScript(t), pre);
  }

  lemma {:induction false} IdsOnce(script: seq<Action>, d: Disk, i: nat)
    requires UniqueIds(d) && i < |script| && script[i].AppendOnce?
    ensures CountId(Journal(Execute(script, d), script[i].path), script[i].record.id) == 1
  {
    ExecuteKeepsUnique(script, d);
    JournaledAfter(script, d);
    CountIdPositive(Journal(Execute(script, d), script[i].path), script[i].record.id);
  }

  lemma AppendedIsOnce(pre: Disk, t: Transaction, c: Record, i: nat)
    requires Admissible(t) && UniqueIds(pre) && i < |t.appends|
    ensures CountId(Journal(Committed(pre, t, c), t.appends[i].path), t.appends[i].record.id) == 1
  {
    var script, k := ApplyScript(t) + [AppendOnce(TRANSACTIONS_PATH, c)], |t.writes| + i;
    ApplyScriptApplies(t);
    CommittedAsScript(pre, t, c);
    assert script[k] == AppendScript(t.appends)[i];
    IdsOnce(script, pre, k);
  }

  lemma CompletedOnce(pre: Disk, t: Transaction, c: Record)
    requires UniqueIds(pre) && CompletionOf(t, c)
    ensures CountId(Journal(Committed(pre, t, c), TRANSACTIONS_PATH), t.id) == 1
    ensures CountId(Journal(pre, TRANSACTIONS_PATH), t.id) == 0 ==>
      Journal(Committed(pre, t, c), TRANSACTIONS_PATH) == Journal(pre, TRANSACTIONS_PATH) + [c]
  {
    var apply := ApplyScript(t);
    ApplyScriptApplies(t);
    CommittedAsScript(pre, t, c);
    ApplyKeeps(apply, pre);
    CountIdPositive(Journal(pre, TRANSACTIONS_PATH), t.id);
    IdsOnce(apply + [AppendOnce(TRANSACTIONS_PATH, c)], pre, |apply|);
  }

  /** Committed: no pending file, each appended id once, one completion record. */
  lemma CommittedContents(pre: Disk, t: Transaction, c: Record)
    requires pre.pending.None? && Admissible(t) && UniqueIds(pre) && CompletionOf(t, c)
    ensures
      var post := Committed(pre, t, c);
      && post.pending.None?
      && (forall i :: 0 <= i < |t.appends| ==>
            CountId(Journal(post, t.appends[i].path), t.appends[i].record.id) == 1)
      && CountId(Journal(post, TRANSACTIONS_PATH), t.id) == 1
      && (CountId(Journal(pre, TRANSACTIONS_PATH), t.id) == 0 ==>
            Journal(post, TRANSACTIONS_PATH) == Journal(pre, TRANSACTIONS_PATH) + [c])
  {
    CommittedIsClean(pre, t, c);
    forall i | 0 <= i < |t.appends|
      ensures CountId(Journal(Committed(pre, t, c), t.appends[i].path), t.appends[i].record.id) == 1
    {
      AppendedIsOnce(pre, t, c, i);
    }
    CompletedOnce(pre, t, c);
  }

  /** Each committed document is the last one the transaction wrote to its path. */
  lemma {:induction false} CommittedDocuments(pre: Disk, t: Transaction, c: Record, i: nat)
    requires Admissible(t) && i < |t.writes|
    requires forall j :: i < j < |t.writes| ==> t.writes[j].path != t.writes[i].path
    ensures
      var post := Committed(pre, t, c);
      t.writes[i].path in post.documents && post.documents[t.writes[i].path] == t.writes[i].document
  {
    LastWriteWins(ApplyScript(t), pre, i);
  }

  lemma {:induction false} LastWriteWins(script: seq<Action>, d: Disk, i: nat)
    requires i < |script| && script[i].WriteDocument?
    requires forall j :: i < j < |script| && script[j].WriteDocument? ==> script[j].path != script[i].path
    ensures script[i].path in Execute(script, d).documents
    ensures Execute(script, d).documents[script[i].path] == script[i].document
  {
    if i < |script| - 1 {
      LastWriteWins(script[..|script| - 1], d, i);
    }
  }
}

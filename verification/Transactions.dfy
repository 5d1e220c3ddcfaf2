/** The write-ahead transaction of autonomous_kernel/store.py as a script of durable steps.
    Every atomic file replacement, fsynced append and unlink is one step; a process that stops
    leaves the disk after some prefix of its script. */
module Transactions {
  import opened Prelude
  import opened KernelDocuments

  datatype Write = Write(path: string, document: Document)

  datatype Append = Append(path: string, record: Record)

  /** The prepared transaction journal held in state/pending_transaction.json. */
  datatype Transaction = Transaction(
    schemaVersion: int, id: string, status: string, writes: seq<Write>, appends: seq<Append>)

  datatype Disk = Disk(
    documents: map<string, Document>, journals: map<string, seq<Record>>, pending: Option<Transaction>)

  datatype Action =
    | WriteDocument(path: string, document: Document)
    | AppendOnce(path: string, record: Record)
    | Prepare(transaction: Transaction)
    | Clear

  const TRANSITIONS_PATH := "state/transitions.jsonl"
  const TRANSACTIONS_PATH := "state/transactions.jsonl"
  const CURRENT_PATH := "state/current_state.json"
  const RESUME_PATH := "state/resume.json"
  const BACKLOG_PATH := "state/backlog.json"

  // ------------------------------------------------------------------ one durable step

  function Journal(d: Disk, path: string): seq<Record> {
    if path in d.journals then d.journals[path] else []
  }

  predicate HasId(log: seq<Record>, id: string) {
    exists i :: 0 <= i < |log| && log[i].id == id
  }

  /** A record whose id is already journaled is not appended again. */
  function AppendedOnce(log: seq<Record>, record: Record): seq<Record> {
    if HasId(log, record.id) then log else log + [record]
  }

  function Perform(a: Action, d: Disk): Disk {
    match a
    case WriteDocument(path, document) => d.(documents := d.documents[path := document])
    case AppendOnce(path, record) =>
      d.(journals := d.journals[path := AppendedOnce(Journal(d, path), record)])
    case Prepare(t) => d.(pending := Some(t))
    case Clear => d.(pending := None)
  }

  function Execute(script: seq<Action>, d: Disk): Disk {
    if script == [] then d
    else Perform(script[|script| - 1], Execute(script[..|script| - 1], d))
  }

  /** What a process that may take at most `budget` durable steps leaves behind. */
  function ExecuteUpTo(script: seq<Action>, budget: nat, d: Disk): Disk {
    Execute(script[..Min(budget, |script|)], d)
  }

  // ------------------------------------------------------------------ scripts

  predicate WriteAllowed(w: Write) {
    && w.path in [CURRENT_PATH, RESUME_PATH, BACKLOG_PATH]
    && !HasForbiddenField(w.document)
  }

  predicate AppendAllowed(a: Append) {
    a.path == TRANSITIONS_PATH && a.record.id != ""
  }

  /** Every entry passes the checks _apply_transaction makes on its way. */
  predicate Admissible(t: Transaction) {
    && (forall i :: 0 <= i < |t.writes| ==> WriteAllowed(t.writes[i]))
    && (forall i :: 0 <= i < |t.appends| ==> AppendAllowed(t.appends[i]))
  }

  /** The writes performed before the first inadmissible one. */
  function WriteScript(ws: seq<Write>): (s: seq<Action>)
    ensures |s| <= |ws|
    ensures forall i :: 0 <= i < |s| ==> s[i] == WriteDocument(ws[i].path, ws[i].document)
    ensures forall i :: 0 <= i < |s| ==> WriteAllowed(ws[i])
    ensures |s| < |ws| ==> !WriteAllowed(ws[|s|])
  {
    if ws == [] || !WriteAllowed(ws[0]) then []
    else [WriteDocument(ws[0].path, ws[0].document)] + WriteScript(ws[1..])
  }

  function AppendScript(xs: seq<Append>): (s: seq<Action>)
    ensures |s| <= |xs|
    ensures forall i :: 0 <= i < |s| ==> s[i] == AppendOnce(xs[i].path, xs[i].record)
    ensures forall i :: 0 <= i < |s| ==> AppendAllowed(xs[i])
    ensures |s| < |xs| ==> !AppendAllowed(xs[|s|])
  {
    if xs == [] || !AppendAllowed(xs[0]) then []
    else [AppendOnce(xs[0].path, xs[0].record)] + AppendScript(xs[1..])
  }

  /** The durable steps of _apply_transaction, up to the first entry it refuses. */
  function ApplyScript(t: Transaction): seq<Action> {
    if |WriteScript(t.writes)| < |t.writes| then WriteScript(t.writes)
    else WriteScript(t.writes) + AppendScript(t.appends)
  }

  function Completion(t: Transaction, status: string, completedAt: string): Record {
    CompletionRecord(t.id, status, completedAt,
                     seq(|t.writes|, i requires 0 <= i < |t.writes| => t.writes[i].path),
                     seq(|t.appends|, i requires 0 <= i < |t.appends| => t.appends[i].path))
  }

  /** Apply, then journal the completion once, then remove the pending file. */
  function FinishScript(t: Transaction, status: string, completedAt: string): seq<Action> {
    if !Admissible(t) then ApplyScript(t)
    else ApplyScript(t) + [AppendOnce(TRANSACTIONS_PATH, Completion(t, status, completedAt)), Clear]
  }

  function CommitScript(t: Transaction, completedAt: string): seq<Action> {
    [Prepare(t)] + FinishScript(t, "completed", completedAt)
  }

  predicate Recoverable(t: Transaction) {
    t.schemaVersion == 1 && t.status == "prepared" && t.id != ""
  }

  /** recover_pending does nothing on a clean disk and refuses an unreadable journal. */
  function RecoverScript(d: Disk, completedAt: string): seq<Action> {
    if d.pending.None? || !Recoverable(d.pending.value) then []
    else FinishScript(d.pending.value, "recovered", completedAt)
  }

  // ------------------------------------------------------------------ executing scripts

  lemma {:induction false} ExecuteConcat(a: seq<Action>, b: seq<Action>, d: Disk)
    ensures Execute(a + b, d) == Execute(b, Execute(a, d))
  {
    if b == [] {
      assert a + b == a;
    } else {
      var last := |b| - 1;
      assert (a + b)[..|a + b| - 1] == a + b[..last];
      ExecuteConcat(a, b[..last], d);
    }
  }

  lemma {:induction false} ExecuteSplit(script: seq<Action>, k: nat, d: Disk)
    requires k <= |script|
    ensures Execute(script, d) == Execute(script[k..], Execute(script[..k], d))
  {
    assert script == script[..k] + script[k..];
    ExecuteConcat(script[..k], script[k..], d);
  }

  /** Steps of _apply_transaction never touch the pending file or the transaction journal. */
  ghost predicate Applies(script: seq<Action>) {
    forall i :: 0 <= i < |script| ==>
      script[i].WriteDocument? || (script[i].AppendOnce? && script[i].path != TRANSACTIONS_PATH)
  }

  lemma ApplyScriptApplies(t: Transaction)
    ensures Applies(ApplyScript(t))
    ensures Admissible(t) ==> |ApplyScript(t)| == |t.writes| + |t.appends|
  {
  }

  lemma {:induction false} ApplyKeeps(script: seq<Action>, d: Disk)
    requires Applies(script)
    ensures Execute(script, d).pending == d.pending
    ensures Journal(Execute(script, d), TRANSACTIONS_PATH) == Journal(d, TRANSACTIONS_PATH)
    ensures TRANSACTIONS_PATH in d.journals <==> TRANSACTIONS_PATH in Execute(script, d).journals
  {
    if script != [] {
      ApplyKeeps(script[..|script| - 1], d);
    }
  }

  // ------------------------------------------------------------------ idempotence

  ghost predicate Writes(script: seq<Action>, path: string) {
    exists i :: 0 <= i < |script| && script[i].WriteDocument? && script[i].path == path
  }

  lemma WritesOneMore(script: seq<Action>, path: string)
    requires script != []
    ensures
      var n := |script| - 1;
      Writes(script, path) <==> Writes(script[..n], path) || (script[n].WriteDocument? && script[n].path == path)
  {
    var n := |script| - 1;
    if Writes(script[..n], path) {
      var i :| 0 <= i < n && script[..n][i].WriteDocument? && script[..n][i].path == path;
      assert script[i].WriteDocument? && script[i].path == path;
    }
    if Writes(script, path) {
      var i :| 0 <= i < |script| && script[i].WriteDocument? && script[i].path == path;
      assert i < n ==> script[..n][i] == script[i];
    }
  }

  ghost predicate SameAt(a: map<string, Document>, b: map<string, Document>, path: string) {
    (path in a <==> path in b) && (path in a ==> a[path] == b[path])
  }

  /** What a script leaves at a path does not depend on the disk it started from, or it leaves it alone. */
  lemma {:induction false} DocumentAt(script: seq<Action>, d: Disk, e: Disk, path: string)
    ensures Writes(script, path) ==> SameAt(Execute(script, d).documents, Execute(script, e).documents, path)
    ensures !Writes(script, path) ==> SameAt(Execute(script, d).documents, d.documents, path)
  {
    if script != [] {
      DocumentAt(script[..|script| - 1], d, e, path);
      WritesOneMore(script, path);
    }
  }

  lemma SameEverywhere(a: map<string, Document>, b: map<string, Document>)
    requires forall p :: SameAt(a, b, p)
    ensures a == b
  {
    forall p ensures p in a <==> p in b {
      assert SameAt(a, b, p);
    }
    assert a.Keys == b.Keys;
    forall p | p in a ensures a[p] == b[p] {
      assert SameAt(a, b, p);
    }
  }

  /** Running a script again on what it left writes the same documents. */
  lemma {:induction false} DocumentsAgain(script: seq<Action>, d: Disk)
    ensures Execute(script, Execute(script, d)).documents == Execute(script, d).documents
  {
    var once, twice := Execute(script, d), Execute(script, Execute(script, d));
    forall p ensures SameAt(twice.documents, once.documents, p) {
      DocumentAt(script, d, once, p);
      DocumentAt(script, once, d, p);
    }
    SameEverywhere(twice.documents, once.documents);
  }

  ghost predicate AllJournaled(script: seq<Action>, d: Disk) {
    forall i :: 0 <= i < |script| && script[i].AppendOnce? ==>
      script[i].path in d.journals && HasId(Journal(d, script[i].path), script[i].record.id)
  }

  lemma {:induction false} JournaledAfter(script: seq<Action>, d: Disk)
    ensures AllJournaled(script, Execute(script, d))
    ensures forall p, id :: HasId(Journal(d, p), id) ==> HasId(Journal(Execute(script, d), p), id)
    ensures d.journals.Keys <= Execute(script, d).journals.Keys
  {
    if script != [] {
      var n := |script| - 1;
      var m := Execute(script[..n], d);
      JournaledAfter(script[..n], d);
      JournalsGrow(script[n], m);
      forall i | 0 <= i < |script| && script[i].AppendOnce?
        ensures script[i].path in Execute(script, d).journals
        ensures HasId(Journal(Execute(script, d), script[i].path), script[i].record.id)
      {
        if i < n {
          assert script[..n][i] == script[i];
        }
      }
    }
  }

  lemma JournalsGrow(a: Action, d: Disk)
    ensures forall p, id :: HasId(Journal(d, p), id) ==> HasId(Journal(Perform(a, d), p), id)
    ensures d.journals.Keys <= Perform(a, d).journals.Keys
    ensures a.AppendOnce? ==>
      a.path in Perform(a, d).journals && HasId(Journal(Perform(a, d), a.path), a.record.id)
  {
    var e := Perform(a, d);
    forall p, id | HasId(Journal(d, p), id) ensures HasId(Journal(e, p), id) {
      var i :| 0 <= i < |Journal(d, p)| && Journal(d, p)[i].id == id;
      assert Journal(e, p)[i].id == id;
    }
    if a.AppendOnce? && !HasId(Journal(d, a.path), a.record.id) {
      assert Journal(e, a.path)[|Journal(d, a.path)|].id == a.record.id;
    }
  }

  lemma {:induction false} JournaledIsNoop(script: seq<Action>, d: Disk)
    requires AllJournaled(script, d)
    ensures Execute(script, d).journals == d.journals
  {
    if script != [] {
      var n := |script| - 1;
      forall i | 0 <= i < n && script[..n][i].AppendOnce?
        ensures script[..n][i].path in d.journals
        ensures HasId(Journal(d, script[..n][i].path), script[..n][i].record.id)
      {
        assert script[..n][i] == script[i];
      }
      JournaledIsNoop(script[..n], d);
      if script[n].AppendOnce? {
        assert d.journals[script[n].path := d.journals[script[n].path]] == d.journals;
      }
    }
  }

  /** Re-running a finished prefix changes nothing: last write wins and appends happen once. */
  lemma {:induction false} PrefixIdempotent(script: seq<Action>, d: Disk)
    requires Applies(script)
    ensures Execute(script, Execute(script, d)) == Execute(script, d)
  {
    var e := Execute(script, d);
    DocumentsAgain(script, d);
    JournaledAfter(script, d);
    JournaledIsNoop(script, e);
    ApplyKeeps(script, d);
    ApplyKeeps(script, e);
  }

  /** Starting over after a stop at any step reaches the state of the uninterrupted script. */
  lemma {:induction false} ReapplyAfterPrefix(script: seq<Action>, k: nat, d: Disk)
    requires Applies(script) && k <= |script|
    ensures Execute(script, Execute(script[..k], d)) == Execute(script, d)
  {
    var p := script[..k];
    PrefixIdempotent(p, d);
    ExecuteSplit(script, k, d);
    ExecuteSplit(script, k, Execute(p, d));
  }
}

/** Append-only hash-chained journals: assembly/journal.py and evaluation/journal.py, which differ only
    in what an entry carries, and the chain that experience/store.py keeps. */
module HashChain {
  import opened Prelude

  datatype Entry<T> = Entry(sequence: int, payload: T, previousHash: string, entryHash: string)

  /** The hash of an entry's body. */
  type EntryHash<!T> = (int, T, string) -> string

  ghost predicate BindsBody<T(!new)>(hash: EntryHash<T>) {
    forall i: int, x: T, p: string, j: int, y: T, q: string :: hash(i, x, p) == hash(j, y, q) ==> i == j && x == y && p == q
  }

  const GENESIS := "GENESIS"

  function LastHash<T>(entries: seq<Entry<T>>): string {
    if entries == [] then GENESIS else entries[|entries| - 1].entryHash
  }

  ghost predicate LinkAt<T>(hash: EntryHash<T>, first: int, entries: seq<Entry<T>>, i: nat)
    requires i < |entries|
  {
    var e := entries[i];
    && e.sequence == first + i && e.previousHash == LastHash(entries[..i])
    && e.entryHash == hash(e.sequence, e.payload, e.previousHash)
  }

  /** Sequences count up from the first, every entry carries the hash of its body and of the entry before. */
  ghost predicate Linked<T>(hash: EntryHash<T>, first: int, entries: seq<Entry<T>>) {
    forall i :: 0 <= i < |entries| ==> LinkAt(hash, first, entries, i)
  }

  function NextEntry<T>(hash: EntryHash<T>, first: int, entries: seq<Entry<T>>, payload: T): Entry<T> {
    var previous := LastHash(entries);
    Entry(first + |entries|, payload, previous, hash(first + |entries|, payload, previous))
  }

  lemma LinkAtPrefix<T>(hash: EntryHash<T>, first: int, entries: seq<Entry<T>>, n: nat, i: nat)
    requires i < n <= |entries|
    ensures LinkAt(hash, first, entries[..n], i) <==> LinkAt(hash, first, entries, i)
  {
    assert entries[..n][..i] == entries[..i] && entries[..n][i] == entries[i];
  }

  lemma LinkedSplits<T>(hash: EntryHash<T>, first: int, entries: seq<Entry<T>>, n: nat)
    requires n < |entries|
    ensures Linked(hash, first, entries[..n + 1]) <==> Linked(hash, first, entries[..n]) && LinkAt(hash, first, entries, n)
  {
    forall i | 0 <= i < n
      ensures LinkAt(hash, first, entries[..n + 1], i) <==> LinkAt(hash, first, entries[..n], i)
    {
      LinkAtPrefix(hash, first, entries, n + 1, i);
      LinkAtPrefix(hash, first, entries, n, i);
    }
    LinkAtPrefix(hash, first, entries, n + 1, n);
    if Linked(hash, first, entries[..n + 1]) {
      assert LinkAt(hash, first, entries[..n + 1], n);
      forall i | 0 <= i < n ensures LinkAt(hash, first, entries[..n], i) {
        assert LinkAt(hash, first, entries[..n + 1], i);
      }
    }
    if Linked(hash, first, entries[..n]) && LinkAt(hash, first, entries, n) {
      var longer := entries[..n + 1];
      forall i | 0 <= i < |longer| ensures LinkAt(hash, first, longer, i) {
        assert i < n ==> LinkAt(hash, first, entries[..n], i);
      }
    }
  }

  lemma LinkedPrefix<T>(hash: EntryHash<T>, first: int, entries: seq<Entry<T>>, n: nat)
    requires Linked(hash, first, entries) && n <= |entries|
    ensures Linked(hash, first, entries[..n])
  {
    forall i | 0 <= i < n ensures LinkAt(hash, first, entries[..n], i) {
      LinkAtPrefix(hash, first, entries, n, i);
    }
  }

  lemma LinkedGrows<T>(hash: EntryHash<T>, first: int, entries: seq<Entry<T>>, payload: T)
    requires Linked(hash, first, entries)
    ensures Linked(hash, first, entries + [NextEntry(hash, first, entries, payload)])
  {
    var after := entries + [NextEntry(hash, first, entries, payload)];
    assert after[..|entries|] == entries && after[..|entries| + 1] == after;
    LinkedSplits(hash, first, after, |entries|);
  }

  lemma LastEntriesEqual<T(!new)>(hash: EntryHash<T>, first: int, a: seq<Entry<T>>, b: seq<Entry<T>>)
    requires BindsBody(hash) && Linked(hash, first, a) && Linked(hash, first, b)
    requires a != [] && b != [] && LastHash(a) == LastHash(b)
    ensures |a| == |b| && a[|a| - 1] == b[|b| - 1]
    ensures LastHash(a[..|a| - 1]) == LastHash(b[..|b| - 1])
  {
    var x, y := a[|a| - 1], b[|b| - 1];
    assert LinkAt(hash, first, a, |a| - 1) && LinkAt(hash, first, b, |b| - 1);
    assert hash(x.sequence, x.payload, x.previousHash) == hash(y.sequence, y.payload, y.previousHash);
  }

  /** The hash of the last entry commits to everything before it: two chains of positive length that end
      in the same hash are equal. */
  lemma {:induction false} LastHashCommits<T(!new)>(hash: EntryHash<T>, first: int, a: seq<Entry<T>>, b: seq<Entry<T>>)
    requires BindsBody(hash) && Linked(hash, first, a) && Linked(hash, first, b)
    requires a != [] && b != [] && LastHash(a) == LastHash(b)
    ensures a == b
    decreases |a|
  {
    var n := |a| - 1;
    LastEntriesEqual(hash, first, a, b);
    if n > 0 {
      LinkedPrefix(hash, first, a, n);
      LinkedPrefix(hash, first, b, n);
      LastHashCommits(hash, first, a[..n], b[..n]);
    }
    assert a == a[..n] + [a[n]] && b == b[..n] + [b[n]];
  }

  // ------------------------------------------------------------------ journals with unique ids

  /** How a journal tells entries apart: by the prediction they are about and by their own name. */
  datatype Names<!T> = Names(subject: T -> string, name: T -> string)

  ghost predicate DistinctBy<T>(entries: seq<Entry<T>>, key: T -> string) {
    forall i, j :: 0 <= i < j < |entries| ==> key(entries[i].payload) != key(entries[j].payload)
  }

  ghost predicate ValidJournal<T>(hash: EntryHash<T>, names: Names<T>, entries: seq<Entry<T>>) {
    Linked(hash, 0, entries) && DistinctBy(entries, names.subject) && DistinctBy(entries, names.name)
  }

  datatype JournalError = HashMismatch(at: int) | SequenceMismatch(at: int) | PreviousMismatch(at: int)
                        | DuplicateSubject(at: int) | DuplicateName(at: int)

  function When(broken: bool, e: JournalError): seq<JournalError> { if broken then [e] else [] }

  function Keys<T>(entries: seq<Entry<T>>, key: T -> string): set<string> {
    set i | 0 <= i < |entries| :: key(entries[i].payload)
  }

  /** _validate_records, which stops looking at an entry whose own hash is wrong. Proved to report nothing
      exactly on the valid journals. */
  method ValidateRecords<T>(hash: EntryHash<T>, names: Names<T>, entries: seq<Entry<T>>) returns (errors: seq<JournalError>)
    ensures errors == [] <==> ValidJournal(hash, names, entries)
  {
    errors := [];
    var previous := GENESIS;
    var subjects: set<string>, labels: set<string> := {}, {};
    var index := 0;
    while index < |entries|
      invariant 0 <= index <= |entries|
      invariant errors == [] <==> ValidJournal(hash, names, entries[..index])
      invariant errors == [] ==> previous == LastHash(entries[..index])
      invariant errors == [] ==> subjects == Keys(entries[..index], names.subject) && labels == Keys(entries[..index], names.name)
    {
      var e, n := entries[index], index;
      index := index + 1;
      ValidStep(hash, names, entries, n);
      if e.entryHash != hash(e.sequence, e.payload, e.previousHash) {
        errors := errors + [HashMismatch(n)];
        continue;
      }
      var found := When(e.sequence != n, SequenceMismatch(n)) + When(e.previousHash != previous, PreviousMismatch(n))
                   + When(names.subject(e.payload) in subjects, DuplicateSubject(n))
                   + When(names.name(e.payload) in labels, DuplicateName(n));
      errors := errors + found;
      KeysGrow(entries, names.subject, n);
      KeysGrow(entries, names.name, n);
      subjects, labels := subjects + {names.subject(e.payload)}, labels + {names.name(e.payload)};
      previous := e.entryHash;
    }
    assert entries[..index] == entries;
  }

  lemma KeysGrow<T>(entries: seq<Entry<T>>, key: T -> string, n: nat)
    requires n < |entries|
    ensures Keys(entries[..n + 1], key) == Keys(entries[..n], key) + {key(entries[n].payload)}
  {
    var before, after := entries[..n], entries[..n + 1];
    forall k ensures k in Keys(after, key) <==> k in Keys(before, key) + {key(entries[n].payload)} {
      if k in Keys(after, key) {
        var i :| 0 <= i < |after| && key(after[i].payload) == k;
        assert i < n ==> before[i] == after[i];
      }
      if k in Keys(before, key) {
        var i :| 0 <= i < |before| && key(before[i].payload) == k;
        assert after[i] == before[i];
      }
      assert after[n] == entries[n];
    }
  }

  ghost predicate Follows<T>(hash: EntryHash<T>, before: seq<Entry<T>>, e: Entry<T>) {
    && e.sequence == |before| && e.previousHash == LastHash(before)
    && e.entryHash == hash(e.sequence, e.payload, e.previousHash)
  }

  /** What one more entry needs. */
  ghost predicate Extends<T>(hash: EntryHash<T>, names: Names<T>, before: seq<Entry<T>>, e: Entry<T>) {
    && Follows(hash, before, e)
    && names.subject(e.payload) !in Keys(before, names.subject) && names.name(e.payload) !in Keys(before, names.name)
  }

  lemma DistinctSplits<T>(entries: seq<Entry<T>>, key: T -> string, n: nat)
    requires n < |entries|
    ensures DistinctBy(entries[..n + 1], key)
      <==> DistinctBy(entries[..n], key) && key(entries[n].payload) !in Keys(entries[..n], key)
  {
    var before, after := entries[..n], entries[..n + 1];
    assert forall i :: 0 <= i < n ==> before[i] == after[i];
    assert after[n] == entries[n];
    if DistinctBy(after, key) {
      forall i | 0 <= i < n ensures key(before[i].payload) != key(entries[n].payload) {
        assert key(after[i].payload) != key(after[n].payload);
      }
    }
    if DistinctBy(before, key) && key(entries[n].payload) !in Keys(before, key) {
      forall i, j | 0 <= i < j < |after| ensures key(after[i].payload) != key(after[j].payload) {
        assert key(before[i].payload) in Keys(before, key);
      }
    }
  }

  lemma ValidStep<T>(hash: EntryHash<T>, names: Names<T>, entries: seq<Entry<T>>, n: nat)
    requires n < |entries|
    ensures ValidJournal(hash, names, entries[..n + 1])
      <==> ValidJournal(hash, names, entries[..n]) && Extends(hash, names, entries[..n], entries[n])
  {
    LinkedSplits(hash, 0, entries, n);
    DistinctSplits(entries, names.subject, n);
    DistinctSplits(entries, names.name, n);
  }

  // ------------------------------------------------------------------ append

  datatype JournalFault = InvalidJournal | DifferentContent

  /** The entry about a subject, the first if there are several. */
  function FindSubject<T>(names: Names<T>, entries: seq<Entry<T>>, subject: string): (found: Option<Entry<T>>)
    ensures found.Some? ==> found.value in entries && names.subject(found.value.payload) == subject
    ensures found.None? <==> subject !in Keys(entries, names.subject)
  {
    if entries == [] then None
    else
      var n := |entries| - 1;
      KeysGrow(entries, names.subject, n);
      assert entries[..n + 1] == entries;
      var before := FindSubject(names, entries[..n], subject);
      if before.Some? then before
      else if names.subject(entries[n].payload) == subject then Some(entries[n])
      else None
  }

  /** append on a journal that validates. */
  function Appended<T(==)>(hash: EntryHash<T>, names: Names<T>, entries: seq<Entry<T>>, payload: T)
    : Result<seq<Entry<T>>, JournalFault>
  {
    match FindSubject(names, entries, names.subject(payload))
    case Some(existing) => if existing.payload == payload then Ok(entries) else Err(DifferentContent)
    case None => Ok(entries + [NextEntry(hash, 0, entries, payload)])
  }

  lemma {:induction false} FindAppended<T>(names: Names<T>, entries: seq<Entry<T>>, e: Entry<T>)
    requires FindSubject(names, entries, names.subject(e.payload)).None?
    ensures FindSubject(names, entries + [e], names.subject(e.payload)) == Some(e)
  {
    assert (entries + [e])[..|entries + [e]| - 1] == entries;
  }

  lemma GrownIsValid<T>(hash: EntryHash<T>, names: Names<T>, entries: seq<Entry<T>>, payload: T)
    requires ValidJournal(hash, names, entries) && names.subject(payload) !in Keys(entries, names.subject)
    ensures ValidJournal(hash, names, entries + [NextEntry(hash, 0, entries, payload)])
      <==> names.name(payload) !in Keys(entries, names.name)
  {
    var grown := entries + [NextEntry(hash, 0, entries, payload)];
    assert grown[..|entries|] == entries && grown[..|entries| + 1] == grown;
    ValidStep(hash, names, grown, |entries|);
  }

  /** append keeps a valid journal valid exactly when the new entry's own name is new: only the subject is
      looked up. Where the name is the subject, it always does. */
  lemma {:induction false} AppendKeepsValid<T>(hash: EntryHash<T>, names: Names<T>, entries: seq<Entry<T>>, payload: T)
    requires ValidJournal(hash, names, entries) && Appended(hash, names, entries, payload).Ok?
    ensures
      var after := Appended(hash, names, entries, payload).value;
      && entries <= after && |after| <= |entries| + 1
      && FindSubject(names, after, names.subject(payload)).Some?
      && FindSubject(names, after, names.subject(payload)).value.payload == payload
      && (ValidJournal(hash, names, after)
          <==> after == entries || names.name(payload) !in Keys(entries, names.name))
  {
    if FindSubject(names, entries, names.subject(payload)).None? {
      FindAppended(names, entries, NextEntry(hash, 0, entries, payload));
      GrownIsValid(hash, names, entries, payload);
    }
  }

  /** Appending again changes nothing, whatever was appended. */
  lemma AppendIsIdempotent<T>(hash: EntryHash<T>, names: Names<T>, entries: seq<Entry<T>>, payload: T)
    requires ValidJournal(hash, names, entries) && Appended(hash, names, entries, payload).Ok?
    ensures
      var after := Appended(hash, names, entries, payload).value;
      Appended(hash, names, after, payload) == Ok(after)
  {
    AppendKeepsValid(hash, names, entries, payload);
  }

  /** The journal's line count and last hash. */
  datatype Summary = Summary(count: nat, lastSequence: Option<int>, lastHash: Option<string>)

  function Describe<T>(entries: seq<Entry<T>>): Summary {
    if entries == [] then Summary(0, None, None)
    else Summary(|entries|, Some(entries[|entries| - 1].sequence), Some(entries[|entries| - 1].entryHash))
  }

  /** The summary file commits to the whole journal. */
  lemma SummaryCommits<T(!new)>(hash: EntryHash<T>, names: Names<T>, a: seq<Entry<T>>, b: seq<Entry<T>>)
    requires BindsBody(hash) && ValidJournal(hash, names, a) && ValidJournal(hash, names, b) && Describe(a) == Describe(b)
    ensures a == b
  {
    if a != [] {
      LastHashCommits(hash, 0, a, b);
    }
  }

  /** A journal with its summary file. */
  datatype Files<T> = Files(entries: seq<Entry<T>>, summary: Option<Summary>)

  /** The durable states of an append, one after each write, and its answer if it is not stopped. */
  datatype AppendRun<T> = AppendRun(states: seq<Files<T>>, fault: Option<JournalFault>)

  function FilesAfter<T>(f: Files<T>, states: seq<Files<T>>): Files<T> {
    if states == [] then f else states[|states| - 1]
  }

  /** append: the line, unless it is there, then the summary, always. */
  function RunOfAppend<T(==)>(hash: EntryHash<T>, names: Names<T>, f: Files<T>, payload: T): AppendRun<T>
    requires ValidJournal(hash, names, f.entries)
  {
    match Appended(hash, names, f.entries, payload)
    case Err(fault) => AppendRun([], Some(fault))
    case Ok(after) =>
      AppendRun((if after == f.entries then [] else [Files(after, f.summary)]) + [Files(after, Some(Describe(after)))], None)
  }

  /** A retry after a stop between the line and its summary finds the line and writes the summary: any stop
      followed by a whole retry ends where one whole append ends. */
  lemma StoppedAppendRetries<T>(hash: EntryHash<T>, names: Names<T>, f: Files<T>, payload: T, stop: nat)
    requires ValidJournal(hash, names, f.entries) && stop <= |RunOfAppend(hash, names, f, payload).states|
    requires ValidJournal(hash, names, FilesAfter(f, RunOfAppend(hash, names, f, payload).states[..stop]).entries)
    ensures
      var run := RunOfAppend(hash, names, f, payload);
      var stopped := FilesAfter(f, run.states[..stop]);
      var again := RunOfAppend(hash, names, stopped, payload);
      again.fault == run.fault && FilesAfter(stopped, again.states) == FilesAfter(f, run.states)
  {
    if Appended(hash, names, f.entries, payload).Ok? {
      AppendIsIdempotent(hash, names, f.entries, payload);
    }
  }

  /** The journal and its summary as files. Each durable write spends one unit of the budget; with none
      left the process stops. */
  class JournalStore<T(==)> {
    var entries: seq<Entry<T>>
    var summary: Option<Summary>
    var budget: nat

    function Current(): Files<T> reads this { Files(entries, summary) }

    constructor (f: Files<T>, budget: nat)
      ensures Current() == f && this.budget == budget
    {
      this.entries, this.summary, this.budget := f.entries, f.summary, budget;
    }

    method Append(hash: EntryHash<T>, names: Names<T>, payload: T) returns (fault: Option<JournalFault>, stopped: bool)
      modifies this
      ensures !ValidJournal(hash, names, old(entries)) ==>
        fault == Some(InvalidJournal) && !stopped && Current() == old(Current()) && budget == old(budget)
      ensures ValidJournal(hash, names, old(entries)) ==>
        var run := RunOfAppend(hash, names, old(Current()), payload);
        var writes := Min(old(budget), |run.states|);
        && Current() == FilesAfter(old(Current()), run.states[..writes]) && budget == old(budget) - writes
        && (stopped <==> old(budget) < |run.states|) && (!stopped ==> fault == run.fault)
    {
      stopped, fault := false, None;
      var errors := ValidateRecords(hash, names, entries);
      if errors != [] { return Some(InvalidJournal), false; }
      ghost var run := RunOfAppend(hash, names, Current(), payload);
      var existing := FindSubject(names, entries, names.subject(payload));
      if existing.Some? && existing.value.payload != payload { return Some(DifferentContent), false; }
      if existing.None? {
        if budget == 0 { return None, true; }
        entries, budget := entries + [NextEntry(hash, 0, entries, payload)], budget - 1;
        assert run.states[0] == Current() && run.states[..1] == [run.states[0]];
      }
      if budget == 0 { return None, true; }
      summary, budget := Some(Describe(entries)), budget - 1;
      assert run.states[..|run.states|] == run.states;
    }
  }
}

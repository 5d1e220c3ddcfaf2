/** The experience store of experience/store.py: immutable snapshots, a hash-chained journal over them, and
    compact commitments to a range of it. */
module ExperienceStore {
  import opened Prelude
  import opened HashChain

  datatype ExperienceFrame = ExperienceFrame(
    experienceId: string, economicRootId: string, cutoffAt: int, knownAt: int, status: string,
    graphHash: string, contextHash: string, views: string)

  /** What an event of the journal says about a frame. */
  datatype Note = Note(
    experienceId: string, contentHash: string, economicRootId: string, cutoffAt: int, knownAt: int,
    status: string, graphHash: string, contextHash: string)

  type FrameHash = ExperienceFrame -> string
  type ListHash = seq<string> -> string

  datatype Store = Store(snapshots: map<string, ExperienceFrame>, events: seq<Entry<Note>>)

  datatype StoreFault = SnapshotDiffers | IdentityConflict | EmptyJournal | InvalidRange | NotContiguous

  datatype PersistReceipt = PersistReceipt(
    experienceId: string, contentHash: string, createdSnapshot: bool, appendedEvent: bool, sequence: int, eventHash: string)

  function NoteOf(content: FrameHash, f: ExperienceFrame): Note {
    Note(f.experienceId, content(f), f.economicRootId, f.cutoffAt, f.knownAt, f.status, f.graphHash, f.contextHash)
  }

  function EventFor(events: seq<Entry<Note>>, id: string): (e: Option<Entry<Note>>)
    ensures e.Some? ==> e.value in events && e.value.payload.experienceId == id
  {
    if events == [] then None
    else if events[0].payload.experienceId == id then Some(events[0])
    else EventFor(events[1..], id)
  }

  datatype Run = Run(states: seq<Store>, result: Result<PersistReceipt, StoreFault>)

  function Final(s: Store, states: seq<Store>): Store { if states == [] then s else states[|states| - 1] }

  /** persist: the snapshot, then the event. */
  function PersistRun(hash: EntryHash<Note>, content: FrameHash, s: Store, f: ExperienceFrame): Run {
    var id := f.experienceId;
    if id in s.snapshots && s.snapshots[id] != f then Run([], Err(SnapshotDiffers))
    else
      var created := id !in s.snapshots;
      var kept := s.(snapshots := s.snapshots[id := f]);
      var first := if created then [kept] else [];
      match EventFor(s.events, id)
      case Some(e) =>
        if e.payload.contentHash != content(f) then Run(first, Err(IdentityConflict))
        else Run(first, Ok(PersistReceipt(id, content(f), created, false, e.sequence, e.entryHash)))
      case None =>
        var e := NextEntry(hash, 1, s.events, NoteOf(content, f));
        Run(first + [kept.(events := s.events + [e])],
            Ok(PersistReceipt(id, content(f), created, true, e.sequence, e.entryHash)))
  }

  /** An event and the snapshot it names. */
  ghost predicate Backed(content: FrameHash, s: Store, i: nat)
    requires i < |s.events|
  {
    var n := s.events[i].payload;
    n.experienceId in s.snapshots && content(s.snapshots[n.experienceId]) == n.contentHash
  }

  /** What verify checks. */
  ghost predicate Verified(hash: EntryHash<Note>, content: FrameHash, s: Store) {
    Linked(hash, 1, s.events) && forall i :: 0 <= i < |s.events| ==> Backed(content, s, i)
  }

  ghost predicate VerifiedTo(hash: EntryHash<Note>, content: FrameHash, s: Store, n: nat)
    requires n <= |s.events|
  {
    Linked(hash, 1, s.events[..n]) && forall i :: 0 <= i < n ==> Backed(content, s, i)
  }

  lemma VerifiedStep(hash: EntryHash<Note>, content: FrameHash, s: Store, n: nat)
    requires n < |s.events|
    ensures VerifiedTo(hash, content, s, n + 1)
      <==> VerifiedTo(hash, content, s, n) && LinkAt(hash, 1, s.events, n) && Backed(content, s, n)
  {
    LinkedSplits(hash, 1, s.events, n);
  }

  datatype VerifyError = WrongSequence(at: int) | WrongPrevious(at: int) | WrongHash(at: int)
                       | MissingSnapshot(at: int) | SnapshotMismatch(at: int)

  function When(broken: bool, e: VerifyError): seq<VerifyError> { if broken then [e] else [] }

  /** verify goes on with the hash it computes, not the one the event claims; it reports nothing exactly on
      a chain whose events are all linked and backed. */
  method Verify(hash: EntryHash<Note>, content: FrameHash, s: Store) returns (ok: bool, errors: seq<VerifyError>)
    ensures ok <==> errors == []
    ensures ok <==> Verified(hash, content, s)
  {
    errors := [];
    var expectedPrevious, expectedSequence, i := GENESIS, 1, 0;
    assert VerifiedTo(hash, content, s, 0);
    while i < |s.events|
      invariant 0 <= i <= |s.events| && expectedSequence == i + 1
      invariant errors == [] <==> VerifiedTo(hash, content, s, i)
      invariant errors == [] ==> expectedPrevious == LastHash(s.events[..i])
    {
      var e := s.events[i];
      var computed := hash(e.sequence, e.payload, e.previousHash);
      var id := e.payload.experienceId;
      VerifiedStep(hash, content, s, i);
      errors := errors + When(e.sequence != expectedSequence, WrongSequence(i))
                + When(e.previousHash != expectedPrevious, WrongPrevious(i)) + When(e.entryHash != computed, WrongHash(i))
                + (if id !in s.snapshots then [MissingSnapshot(i)]
                   else When(content(s.snapshots[id]) != e.payload.contentHash, SnapshotMismatch(i)));
      expectedPrevious, expectedSequence, i := computed, expectedSequence + 1, i + 1;
    }
    assert s.events[..i] == s.events;
    ok := errors == [];
  }

  lemma BackedStays(content: FrameHash, a: Store, b: Store, i: nat)
    requires i < |a.events| && a.events <= b.events && Backed(content, a, i)
    requires forall k :: k in a.snapshots ==> k in b.snapshots && b.snapshots[k] == a.snapshots[k]
    ensures Backed(content, b, i)
  {
  }

  /** Every state that persist passes through verifies if the store did, and no snapshot or event is lost. */
  lemma PersistKeepsVerified(hash: EntryHash<Note>, content: FrameHash, s: Store, f: ExperienceFrame, i: nat)
    requires Verified(hash, content, s) && i < |PersistRun(hash, content, s, f).states|
    ensures
      var after := PersistRun(hash, content, s, f).states[i];
      && Verified(hash, content, after) && s.events <= after.events
      && forall k :: k in s.snapshots ==> k in after.snapshots && after.snapshots[k] == s.snapshots[k]
  {
    var after := PersistRun(hash, content, s, f).states[i];
    forall k | 0 <= k < |s.events| ensures Backed(content, after, k) {
      BackedStays(content, s, after, k);
    }
    if |after.events| > |s.events| {
      LinkedGrows(hash, 1, s.events, NoteOf(content, f));
      assert Backed(content, after, |s.events|);
    }
  }

  lemma {:induction false} EventForLast(events: seq<Entry<Note>>, e: Entry<Note>)
    requires EventFor(events, e.payload.experienceId).None?
    ensures EventFor(events + [e], e.payload.experienceId) == Some(e)
  {
    if events != [] {
      EventForLast(events[1..], e);
      assert (events + [e])[1..] == events[1..] + [e];
    }
  }

  /** A stop between snapshot and event, then persist again: the same store and the same event as without
      the stop. After a completed persist, persisting again writes nothing. */
  lemma PersistAgain(hash: EntryHash<Note>, content: FrameHash, s: Store, f: ExperienceFrame, n: nat)
    requires PersistRun(hash, content, s, f).result.Ok? && n <= |PersistRun(hash, content, s, f).states|
    ensures
      var run := PersistRun(hash, content, s, f);
      var stopped := Final(s, run.states[..n]);
      var again := PersistRun(hash, content, stopped, f);
      && again.result.Ok? && Final(stopped, again.states) == Final(s, run.states)
      && again.result.value.sequence == run.result.value.sequence
      && again.result.value.eventHash == run.result.value.eventHash
      && (n == |run.states| && n > 0 ==> again.states == [])
  {
    var run := PersistRun(hash, content, s, f);
    var kept := s.(snapshots := s.snapshots[f.experienceId := f]);
    assert f.experienceId in s.snapshots ==> kept == s;
    assert kept.snapshots[f.experienceId := f] == kept.snapshots;
    if EventFor(s.events, f.experienceId).None? {
      EventForLast(s.events, NextEntry(hash, 1, s.events, NoteOf(content, f)));
    }
    assert run.states[..|run.states|] == run.states;
  }

  // ------------------------------------------------------------------ commitments

  datatype Commitment = Commitment(
    start: int, end: int, count: nat, firstHash: string, lastHash: string, rangeDigest: string,
    lastExperienceId: string, lastCutoffAt: int, knownAt: int)

  function Hashes(events: seq<Entry<Note>>): seq<string> {
    seq(|events|, i requires 0 <= i < |events| => events[i].entryHash)
  }

  function LatestKnown(events: seq<Entry<Note>>): (t: int)
    requires events != []
    ensures forall i :: 0 <= i < |events| ==> events[i].payload.knownAt <= t
  {
    var n := |events| - 1;
    if n == 0 then events[0].payload.knownAt else Max(LatestKnown(events[..n]), events[n].payload.knownAt)
  }

  predicate Contiguous(events: seq<Entry<Note>>, start: int) {
    forall i :: 0 <= i < |events| ==> events[i].sequence == start + i
  }

  /** commitment over the events start..end, counted from 1. */
  function Commit(list: ListHash, s: Store, start: int, end: int): Result<Commitment, StoreFault> {
    if s.events == [] then Err(EmptyJournal)
    else if start <= 0 || end < start || end > |s.events| then Err(InvalidRange)
    else
      var selected := s.events[start - 1..end];
      if !Contiguous(selected, start) then Err(NotContiguous)
      else
        var last := selected[|selected| - 1];
        Ok(Commitment(start, end, |selected|, selected[0].entryHash, last.entryHash, list(Hashes(selected)),
                      last.payload.experienceId, last.payload.cutoffAt, LatestKnown(selected)))
  }

  ghost predicate BindsLists(list: ListHash) {
    forall a: seq<string>, b: seq<string> :: list(a) == list(b) ==> a == b
  }

  /** A verified store can commit to every range inside it. */
  lemma VerifiedCanCommit(hash: EntryHash<Note>, content: FrameHash, list: ListHash, s: Store, start: int, end: int)
    requires Verified(hash, content, s) && s.events != []
    ensures Commit(list, s, start, end).Ok? <==> 0 < start <= end <= |s.events|
  {
    if 0 < start <= end <= |s.events| {
      var selected := s.events[start - 1..end];
      forall i | 0 <= i < |selected| ensures selected[i].sequence == start + i {
        assert LinkAt(hash, 1, s.events, start - 1 + i);
      }
    }
  }

  lemma SameEventAtHash(hash: EntryHash<Note>, a: seq<Entry<Note>>, b: seq<Entry<Note>>, i: nat)
    requires BindsBody(hash) && Linked(hash, 1, a) && Linked(hash, 1, b)
    requires i < |a| && i < |b| && a[i].entryHash == b[i].entryHash
    ensures a[i] == b[i]
  {
    assert LinkAt(hash, 1, a, i) && LinkAt(hash, 1, b, i);
  }

  /** Two verified journals with equal commitments to a range agree on that range, and on everything before it. */
  lemma CommitmentBinds(hash: EntryHash<Note>, content: FrameHash, list: ListHash, a: Store, b: Store,
                        start: int, end: int, otherStart: int, otherEnd: int)
    requires BindsBody(hash) && BindsLists(list) && Verified(hash, content, a) && Verified(hash, content, b)
    requires Commit(list, a, start, end).Ok? && Commit(list, a, start, end) == Commit(list, b, otherStart, otherEnd)
    ensures start == otherStart && end == otherEnd && end <= |a.events| && end <= |b.events|
    ensures a.events[..end] == b.events[..end]
  {
    LinkedPrefix(hash, 1, a.events, end);
    LinkedPrefix(hash, 1, b.events, end);
    var x, y := a.events[..end], b.events[..end];
    assert LastHash(x) == a.events[start - 1..end][|a.events[start - 1..end]| - 1].entryHash;
    assert LastHash(y) == b.events[start - 1..end][|b.events[start - 1..end]| - 1].entryHash;
    LastHashCommits(hash, 1, x, y);
  }

  lemma HashInRange(events: seq<Entry<Note>>, low: nat, high: nat, i: nat)
    requires low <= i < high <= |events|
    ensures Hashes(events[low..high])[i - low] == events[i].entryHash
  {
  }

  /** The range digest alone binds the range, event by event. */
  lemma DigestBindsRange(hash: EntryHash<Note>, content: FrameHash, list: ListHash, a: Store, b: Store, start: int, end: int, i: nat)
    requires BindsBody(hash) && BindsLists(list) && Verified(hash, content, a) && Verified(hash, content, b)
    requires Commit(list, a, start, end).Ok? && Commit(list, b, start, end).Ok?
    requires Commit(list, a, start, end).value.rangeDigest == Commit(list, b, start, end).value.rangeDigest
    requires start - 1 <= i < end
    ensures a.events[i] == b.events[i]
  {
    var x, y := Hashes(a.events[start - 1..end]), Hashes(b.events[start - 1..end]);
    assert x == y;
    HashInRange(a.events, start - 1, end, i);
    HashInRange(b.events, start - 1, end, i);
    SameEventAtHash(hash, a.events, b.events, i);
  }

  // ------------------------------------------------------------------ the store on its files

  class MarketExperienceStore {
    var snapshots: map<string, ExperienceFrame>
    var events: seq<Entry<Note>>
    var budget: nat

    function Current(): Store reads this { Store(snapshots, events) }

    constructor (s: Store, budget: nat)
      ensures Current() == s && this.budget == budget
    {
      snapshots, events := s.snapshots, s.events;
      this.budget := budget;
    }

    method Persist(hash: EntryHash<Note>, content: FrameHash, f: ExperienceFrame)
      returns (result: Result<PersistReceipt, StoreFault>, stopped: bool)
      modifies this
      ensures
        var run := PersistRun(hash, content, old(Current()), f);
        && Current() == Final(old(Current()), run.states[..Min(old(budget), |run.states|)])
        && (stopped <==> old(budget) < |run.states|) && (!stopped ==> result == run.result)
    {
      ghost var start, run := Current(), PersistRun(hash, content, Current(), f);
      stopped, result := false, Err(SnapshotDiffers);
      var id, created := f.experienceId, false;
      if id in snapshots {
        if snapshots[id] != f { return; }
        assert snapshots[id := f] == snapshots;
      } else {
        if budget == 0 { stopped := true; return; }
        snapshots, budget, created := snapshots[id := f], budget - 1, true;
        assert run.states[0] == Current() && run.states[..1] == [run.states[0]];
      }
      var existing := EventFor(events, id);
      if existing.Some? {
        result := if existing.value.payload.contentHash != content(f) then Err(IdentityConflict)
                  else Ok(PersistReceipt(id, content(f), created, false, existing.value.sequence, existing.value.entryHash));
        return;
      }
      if budget == 0 { stopped := true; return; }
      var e := NextEntry(hash, 1, events, NoteOf(content, f));
      events, budget := events + [e], budget - 1;
      assert run.states[..|run.states|] == run.states;
      result := Ok(PersistReceipt(id, content(f), created, true, e.sequence, e.entryHash));
    }
  }
}

/** The stream journal of microstream.py: an append-only file of records with an identity index that is built
    once from the file and then kept in memory. */
module StreamJournal {
  import opened Prelude
  import opened OrderBook
  import opened StreamReplay

  /** A provider message as it arrives: the sequence number may be missing or not an integer. */
  datatype Incoming = Incoming(channel: string, sequence: Option<int>, timestamp: string, events: seq<BookEvent>)

  datatype IngestFault =
    | NoChannel
    | NoProvenance
    | HashMismatch(line: nat)
    | Conflict(sequence: int)

  /** The canonical hash of a message. */
  type HashOf = Message -> string

  /** The file and the index in memory, which is absent until first used. */
  datatype State = State(records: seq<Record>, identities: Option<map<int, string>>)

  /** What the indexing loop has when it stops: at the end, or at the first conflicting record. */
  datatype Index = Index(seen: map<int, string>, conflict: Option<int>)

  function Indexed(before: Index, r: Record): Index {
    var k := r.message.sequence;
    if before.conflict.Some? then before
    else if k in before.seen && before.seen[k] != r.messageHash then before.(conflict := Some(k))
    else before.(seen := before.seen[k := r.messageHash])
  }

  function IndexOf(records: seq<Record>): Index {
    if records == [] then Index(map[], None) else Indexed(IndexOf(records[..|records| - 1]), records[|records| - 1])
  }

  predicate Intact(hash: HashOf, r: Record) { hash(r.message) == r.messageHash }

  /** The lines before the first one whose hash is wrong. */
  function IntactPrefix(hash: HashOf, records: seq<Record>): (n: nat)
    ensures n <= |records|
    ensures forall i :: 0 <= i < n ==> Intact(hash, records[i])
    ensures n < |records| ==> !Intact(hash, records[n])
  {
    if records == [] then 0
    else
      var last := |records| - 1;
      var n := IntactPrefix(hash, records[..last]);
      if n == last && Intact(hash, records[last]) then last + 1 else n
  }

  /** The index is put in place empty, before the file is read and while it is filled. */
  function Load(hash: HashOf, s: State): (State, Option<IngestFault>) {
    if s.identities.Some? then (s, None)
    else
      var n := IntactPrefix(hash, s.records);
      if n < |s.records| then (s.(identities := Some(map[])), Some(HashMismatch(n + 1)))
      else
        var index := IndexOf(s.records);
        (s.(identities := Some(index.seen)),
         match index.conflict case None => None case Some(k) => Some(Conflict(k)))
  }

  function MessageOf(m: Incoming): Message
    requires m.sequence.Some?
  {
    Message(m.channel, m.sequence.value, m.timestamp, m.events)
  }

  predicate Complete(m: Incoming) { m.channel != [] && m.sequence.Some? && m.timestamp != [] }

  function IngestIndexed(hash: HashOf, s: State, m: Message): (State, Result<bool, IngestFault>)
    requires s.identities.Some?
  {
    var seen, k := s.identities.value, m.sequence;
    if k in seen then (s, if seen[k] != hash(m) then Err(Conflict(k)) else Ok(false))
    else (State(s.records + [Record(m, hash(m))], Some(seen[k := hash(m)])), Ok(true))
  }

  function IngestRun(hash: HashOf, s: State, m: Incoming): (State, Result<bool, IngestFault>) {
    if m.channel == [] then (s, Err(NoChannel))
    else if m.sequence.None? || m.timestamp == [] then (s, Err(NoProvenance))
    else
      var (loaded, fault) := Load(hash, s);
      if fault.Some? then (loaded, Err(fault.value)) else IngestIndexed(hash, loaded, MessageOf(m))
  }

  // ------------------------------------------------------------------ a sound journal

  ghost predicate Holds(records: seq<Record>, k: int, digest: string) {
    exists i :: 0 <= i < |records| && records[i].message.sequence == k && records[i].messageHash == digest
  }

  ghost predicate IndexesAt(seen: map<int, string>, records: seq<Record>, i: nat)
    requires i < |records|
  {
    records[i].message.sequence in seen && seen[records[i].message.sequence] == records[i].messageHash
  }

  ghost predicate Indexes(seen: map<int, string>, records: seq<Record>) {
    && (forall i :: 0 <= i < |records| ==> IndexesAt(seen, records, i))
    && forall k :: k in seen ==> Holds(records, k, seen[k])
  }

  ghost predicate Sound(hash: HashOf, s: State) {
    && DistinctSequences(s.records)
    && (forall i :: 0 <= i < |s.records| ==> Intact(hash, s.records[i]))
    && (s.identities.Some? ==> Indexes(s.identities.value, s.records))
  }

  lemma IndexesOneMore(seen: map<int, string>, records: seq<Record>, r: Record)
    requires Indexes(seen, records) && r.message.sequence !in seen
    ensures Indexes(seen[r.message.sequence := r.messageHash], records + [r])
  {
    var more, after := seen[r.message.sequence := r.messageHash], records + [r];
    forall i | 0 <= i < |after| ensures IndexesAt(more, after, i) {
      assert i < |records| ==> IndexesAt(seen, records, i);
    }
    forall k | k in more ensures Holds(after, k, more[k]) {
      if k == r.message.sequence {
        assert after[|records|] == r;
      } else {
        assert Holds(records, k, seen[k]);
        var i :| 0 <= i < |records| && records[i].message.sequence == k && records[i].messageHash == seen[k];
        assert after[i] == records[i];
      }
    }
  }

  lemma {:induction false} SoundIndex(records: seq<Record>)
    requires DistinctSequences(records)
    ensures IndexOf(records).conflict.None? && Indexes(IndexOf(records).seen, records)
  {
    if records != [] {
      var n := |records| - 1;
      var seen := IndexOf(records[..n]).seen;
      SoundIndex(records[..n]);
      forall k | k in seen ensures k != records[n].message.sequence {
        assert Holds(records[..n], k, seen[k]);
      }
      IndexesOneMore(seen, records[..n], records[n]);
      assert records[..n] + [records[n]] == records;
    }
  }

  lemma SoundLoads(hash: HashOf, s: State)
    requires Sound(hash, s)
    ensures
      var (loaded, fault) := Load(hash, s);
      fault.None? && loaded.records == s.records && loaded.identities.Some? && Sound(hash, loaded)
  {
    SoundIndex(s.records);
  }

  lemma IndexedKeepsSound(hash: HashOf, s: State, m: Message)
    requires Sound(hash, s) && s.identities.Some?
    ensures Sound(hash, IngestIndexed(hash, s, m).0)
  {
    var seen, r := s.identities.value, Record(m, hash(m));
    if m.sequence !in seen {
      var after := s.records + [r];
      IndexesOneMore(seen, s.records, r);
      forall i, j | 0 <= i < j < |after| ensures after[i].message.sequence != after[j].message.sequence {
        assert IndexesAt(seen, s.records, i);
      }
    }
  }

  /** What ingest does to a sound journal, told by the file alone: a complete message with a new number is
      appended, with a known number and hash it is ignored, and any other is refused; the journal stays sound. */
  lemma IngestDecides(hash: HashOf, s: State, m: Incoming)
    requires Sound(hash, s)
    ensures
      var (after, answer) := IngestRun(hash, s, m);
      && Sound(hash, after)
      && (answer.Ok? ==> Complete(m))
      && (answer == Ok(true) <==>
          Complete(m) && forall r :: r in s.records ==> r.message.sequence != m.sequence.value)
      && (answer == Ok(false) <==> Complete(m) && Holds(s.records, m.sequence.value, hash(MessageOf(m))))
      && after.records == s.records + if answer == Ok(true) then [Record(MessageOf(m), hash(MessageOf(m)))] else []
  {
    if Complete(m) {
      SoundLoads(hash, s);
      var loaded := Load(hash, s).0;
      IndexedKeepsSound(hash, loaded, MessageOf(m));
      IndexAnswers(loaded.identities.value, s.records, m.sequence.value);
    }
  }

  lemma IndexAnswers(seen: map<int, string>, records: seq<Record>, k: int)
    requires Indexes(seen, records) && DistinctSequences(records)
    ensures k !in seen <==> forall r :: r in records ==> r.message.sequence != k
    ensures forall digest :: Holds(records, k, digest) <==> k in seen && seen[k] == digest
  {
    forall r | r in records ensures r.message.sequence in seen {
      var i :| 0 <= i < |records| && records[i] == r;
      assert IndexesAt(seen, records, i);
    }
    if k in seen {
      assert Holds(records, k, seen[k]);
    }
    forall digest | Holds(records, k, digest) ensures k in seen && seen[k] == digest {
      var i :| 0 <= i < |records| && records[i].message.sequence == k && records[i].messageHash == digest;
      assert IndexesAt(seen, records, i);
    }
  }

  // ------------------------------------------------------------------ whole runs

  /** One move of a run: a message arrives, or the process ends and a new journal object opens the file. A
      stop inside ingest after the append is a message followed by a restart. */
  datatype Move = Arrive(message: Incoming) | Restart

  function Moved(hash: HashOf, s: State, move: Move): State {
    match move
    case Arrive(m) => IngestRun(hash, s, m).0
    case Restart => s.(identities := None)
  }

  function RunOf(hash: HashOf, moves: seq<Move>): State {
    if moves == [] then State([], None) else Moved(hash, RunOf(hash, moves[..|moves| - 1]), moves[|moves| - 1])
  }

  lemma {:induction false} RunsAreSound(hash: HashOf, moves: seq<Move>)
    ensures Sound(hash, RunOf(hash, moves))
  {
    if moves != [] {
      var n := |moves| - 1;
      RunsAreSound(hash, moves[..n]);
      match moves[n] {
        case Arrive(m) => IngestDecides(hash, RunOf(hash, moves[..n]), m);
        case Restart =>
      }
    }
  }

  /** On every journal that ingest wrote, over any number of restarts, replay and the feature fold hold one
      book or fail for one reason, no record is a duplicate, and the book is the last write to each level. */
  lemma {:induction false} WrittenBooksAgree(hash: HashOf, priceOf: PriceOf, moves: seq<Move>)
    ensures
      var records := RunOf(hash, moves).records;
      var replay, feature := Replay(priceOf, records), FeatureBook(priceOf, records);
      && (replay.Err? ==> feature.Err? && replay.error == InBook(feature.error))
      && (replay.Ok? ==> && feature == Ok(replay.value.book)
                         && replay.value.duplicates == 0
                         && Shows(replay.value.book, SinceSnapshot(BookEvents(records))))
  {
    RunsAreSound(hash, moves);
    var records := RunOf(hash, moves).records;
    BooksAgree(priceOf, records);
    if Replay(priceOf, records).Ok? {
      BothAreLastWrite(priceOf, records);
    }
  }

  // ------------------------------------------------------------------ a file that cannot be indexed

  /** After one refusal by an unreadable line the same object takes the index as built: the next complete
      message is appended whatever the file holds, its own number included. */
  lemma UnreadableFileIsForgotten(hash: HashOf, s: State, m: Incoming, next: Incoming)
    requires s.identities.None? && (exists i :: 0 <= i < |s.records| && !Intact(hash, s.records[i]))
    requires Complete(m) && Complete(next)
    ensures
      var (after, refusal) := IngestRun(hash, s, m);
      && refusal.Err? && refusal.error.HashMismatch? && after.records == s.records
      && IngestRun(hash, after, next).1 == Ok(true)
      && IngestRun(hash, after, next).0.records == s.records + [Record(MessageOf(next), hash(MessageOf(next)))]
  {
    assert IntactPrefix(hash, s.records) < |s.records|;
  }

  /** Where two records conflict, the object that reported it goes on with the index of the records before
      the conflict, and takes a message exactly when its number is not among those. */
  lemma ConflictIsForgotten(hash: HashOf, s: State, m: Incoming, next: Incoming)
    requires s.identities.None? && forall i :: 0 <= i < |s.records| ==> Intact(hash, s.records[i])
    requires IndexOf(s.records).conflict.Some? && Complete(m) && Complete(next)
    ensures
      var (after, refusal) := IngestRun(hash, s, m);
      && refusal.Err? && refusal.error.Conflict? && after.records == s.records
      && (IngestRun(hash, after, next).1 == Ok(true) <==> next.sequence.value !in IndexOf(s.records).seen)
  {
    assert IntactPrefix(hash, s.records) == |s.records|;
  }

  // ------------------------------------------------------------------ when a held number is never taken again

  lemma {:induction false} StaysInConflict(records: seq<Record>, i: nat)
    requires i <= |records| && IndexOf(records[..i]).conflict.Some?
    ensures IndexOf(records) == IndexOf(records[..i])
    decreases |records|
  {
    if i == |records| {
      assert records[..i] == records;
    } else {
      var n := |records| - 1;
      assert records[..n][..i] == records[..i];
      StaysInConflict(records[..n], i);
    }
  }

  predicate OnFile(records: seq<Record>, k: int) { exists i :: 0 <= i < |records| && records[i].message.sequence == k }

  predicate AllIntact(hash: HashOf, records: seq<Record>) { forall i :: 0 <= i < |records| ==> Intact(hash, records[i]) }

  /** Every number on file is a key of the index. */
  predicate Covers(seen: map<int, string>, records: seq<Record>) {
    forall i :: 0 <= i < |records| ==> records[i].message.sequence in seen
  }

  lemma {:induction false} IndexCovers(records: seq<Record>)
    requires IndexOf(records).conflict.None?
    ensures Covers(IndexOf(records).seen, records)
  {
    if records != [] {
      var n := |records| - 1;
      IndexCovers(records[..n]);
      assert forall i :: 0 <= i < n ==> records[i] == records[..n][i];
    }
  }

  lemma {:induction false} IndexHoldsOnlyFile(records: seq<Record>, k: int)
    requires k in IndexOf(records).seen
    ensures OnFile(records, k)
  {
    var n := |records| - 1;
    if k in IndexOf(records[..n]).seen {
      IndexHoldsOnlyFile(records[..n], k);
      var i :| 0 <= i < n && records[..n][i].message.sequence == k;
      assert records[i].message.sequence == k;
    } else {
      assert records[n].message.sequence == k;
    }
  }

  lemma LoadsIntact(hash: HashOf, s: State)
    requires s.identities.None? && AllIntact(hash, s.records)
    ensures Load(hash, s).0 == s.(identities := Some(IndexOf(s.records).seen))
    ensures Load(hash, s).1.None? <==> IndexOf(s.records).conflict.None?
  {
  }

  /** No complete message whose number is on file is appended. */
  ghost predicate TakesNoHeld(hash: HashOf, s: State) {
    forall m :: Complete(m) && OnFile(s.records, m.sequence.value) ==> IngestRun(hash, s, m).1 != Ok(true)
  }

  /** Either the index is in memory and covers the file, or it will be once the file is read. */
  predicate Ready(hash: HashOf, s: State) {
    match s.identities
    case None => AllIntact(hash, s.records) && Covers(IndexOf(s.records).seen, s.records)
    case Some(seen) => Covers(seen, s.records)
  }

  lemma ReadyTakesNoHeld(hash: HashOf, s: State)
    requires Ready(hash, s)
    ensures TakesNoHeld(hash, s)
  {
    forall m | Complete(m) && OnFile(s.records, m.sequence.value) ensures IngestRun(hash, s, m).1 != Ok(true) {
      if s.identities.None? {
        LoadsIntact(hash, s);
      }
    }
  }

  lemma ReadyStays(hash: HashOf, s: State, m: Incoming)
    requires Ready(hash, s)
    ensures Ready(hash, IngestRun(hash, s, m).0)
  {
    if s.identities.None? && Complete(m) {
      LoadsIntact(hash, s);
    }
  }

  /** What one object makes of the messages it is given. */
  function Fed(hash: HashOf, s: State, messages: seq<Incoming>): State {
    if messages == [] then s
    else IngestRun(hash, Fed(hash, s, messages[..|messages| - 1]), messages[|messages| - 1]).0
  }

  lemma {:induction false} FedStaysReady(hash: HashOf, s: State, messages: seq<Incoming>)
    requires Ready(hash, s)
    ensures Ready(hash, Fed(hash, s, messages))
  {
    if messages != [] {
      var n := |messages| - 1;
      FedStaysReady(hash, s, messages[..n]);
      ReadyStays(hash, Fed(hash, s, messages[..n]), messages[n]);
    }
  }

  function Plain(k: int): Incoming { Incoming("c", Some(k), "t", []) }

  /** On a file that is not covered, whatever the first complete message, the second call can take a held number. */
  lemma UncoveredTakesHeld(hash: HashOf, s: State, m: Incoming) returns (next: Incoming)
    requires s.identities.None? && !Ready(hash, s) && Complete(m)
    ensures
      var after := IngestRun(hash, s, m).0;
      Complete(next) && OnFile(after.records, next.sequence.value) && IngestRun(hash, after, next).1 == Ok(true)
  {
    if AllIntact(hash, s.records) {
      var i :| 0 <= i < |s.records| && s.records[i].message.sequence !in IndexOf(s.records).seen;
      if IndexOf(s.records).conflict.None? {
        IndexCovers(s.records);
        assert false;
      }
      LoadsIntact(hash, s);
      next := Plain(s.records[i].message.sequence);
      ConflictIsForgotten(hash, s, m, next);
    } else {
      var i :| 0 <= i < |s.records| && !Intact(hash, s.records[i]);
      next := Plain(s.records[i].message.sequence);
      UnreadableFileIsForgotten(hash, s, m, next);
    }
  }

  /** After its first complete message a new object takes no number that is on file exactly when every line is
      intact and the index, up to its first conflict, has every number. */
  lemma NextCallExactly(hash: HashOf, s: State, m: Incoming)
    requires s.identities.None? && Complete(m)
    ensures TakesNoHeld(hash, IngestRun(hash, s, m).0)
      <==> AllIntact(hash, s.records) && Covers(IndexOf(s.records).seen, s.records)
  {
    if Ready(hash, s) {
      ReadyStays(hash, s, m);
      ReadyTakesNoHeld(hash, IngestRun(hash, s, m).0);
    } else {
      var next := UncoveredTakesHeld(hash, s, m);
    }
  }

  /** The same over everything one object is given: it never takes a held number, whatever the messages before,
      exactly when the file it opened is intact and covered. */
  lemma {:induction false} OneObjectExactly(hash: HashOf, file: seq<Record>)
    ensures (forall messages :: TakesNoHeld(hash, Fed(hash, State(file, None), messages)))
      <==> AllIntact(hash, file) && Covers(IndexOf(file).seen, file)
  {
    var s := State(file, None);
    if Ready(hash, s) {
      forall messages ensures TakesNoHeld(hash, Fed(hash, s, messages)) {
        FedStaysReady(hash, s, messages);
        ReadyTakesNoHeld(hash, Fed(hash, s, messages));
      }
    } else {
      var next := UncoveredTakesHeld(hash, s, Plain(0));
      assert [Plain(0)][..0] == [];
      assert Fed(hash, s, [Plain(0)]) == IngestRun(hash, s, Plain(0)).0;
      assert !TakesNoHeld(hash, Fed(hash, s, [Plain(0)]));
    }
  }

  // ------------------------------------------------------------------ and over restarts

  /** The file is intact and without conflict, and an index in memory is that of the file. */
  predicate Consistent(hash: HashOf, s: State) {
    && AllIntact(hash, s.records) && IndexOf(s.records).conflict.None?
    && (s.identities.Some? ==> s.identities.value == IndexOf(s.records).seen)
  }

  lemma ConsistentStays(hash: HashOf, s: State, move: Move)
    requires Consistent(hash, s)
    ensures Consistent(hash, Moved(hash, s, move)) && Ready(hash, s)
  {
    IndexCovers(s.records);
    match move {
      case Restart =>
      case Arrive(m) =>
        if Complete(m) {
          if s.identities.None? {
            LoadsIntact(hash, s);
          }
          var r := Record(MessageOf(m), hash(MessageOf(m)));
          assert (s.records + [r])[..|s.records|] == s.records;
        }
    }
  }

  function MovedBy(hash: HashOf, s: State, moves: seq<Move>): State {
    if moves == [] then s else Moved(hash, MovedBy(hash, s, moves[..|moves| - 1]), moves[|moves| - 1])
  }

  lemma {:induction false} MovesStayConsistent(hash: HashOf, s: State, moves: seq<Move>)
    requires Consistent(hash, s)
    ensures Consistent(hash, MovedBy(hash, s, moves))
  {
    if moves != [] {
      var n := |moves| - 1;
      MovesStayConsistent(hash, s, moves[..n]);
      ConsistentStays(hash, MovedBy(hash, s, moves[..n]), moves[n]);
    }
  }

  lemma {:induction false} AboveAll(records: seq<Record>) returns (k: int)
    ensures forall i :: 0 <= i < |records| ==> records[i].message.sequence < k
  {
    k := 0;
    for i := 0 to |records|
      invariant forall j :: 0 <= j < i ==> records[j].message.sequence < k
    {
      if records[i].message.sequence >= k {
        k := records[i].message.sequence + 1;
      }
    }
  }

  /** Behind a conflict a new number is appended where no later index reaches: after a restart it is taken again. */
  lemma ConflictTakesAgain(hash: HashOf, file: seq<Record>) returns (moves: seq<Move>)
    requires AllIntact(hash, file) && IndexOf(file).conflict.Some?
    ensures !TakesNoHeld(hash, MovedBy(hash, State(file, None), moves))
  {
    var s := State(file, None);
    var k := AboveAll(file);
    var r, index := Record(MessageOf(Plain(k)), hash(MessageOf(Plain(k)))), IndexOf(file);
    if k in index.seen {
      IndexHoldsOnlyFile(file, k);
      assert false;
    }
    var first := State(file, Some(index.seen));
    LoadsIntact(hash, s);
    assert IngestRun(hash, s, Plain(0)).0 == first;
    var second := State(file + [r], Some(index.seen[k := r.messageHash]));
    assert IngestRun(hash, first, Plain(k)) == (second, Ok(true));
    var third := State(file + [r], None);
    assert (file + [r])[..|file|] == file;
    StaysInConflict(file + [r], |file|);
    LoadsIntact(hash, third);
    var last := State(file + [r], Some(index.seen));
    assert IngestRun(hash, third, Plain(0)).0 == last;
    assert last.records[|file|].message.sequence == k;
    assert OnFile(last.records, Plain(k).sequence.value) && IngestRun(hash, last, Plain(k)).1 == Ok(true);
    moves := [Arrive(Plain(0)), Arrive(Plain(k)), Restart, Arrive(Plain(0))];
    FourMoves(hash, s, moves[0], moves[1], moves[2], moves[3]);
  }

  lemma {:induction false} FourMoves(hash: HashOf, s: State, a: Move, b: Move, c: Move, d: Move)
    ensures MovedBy(hash, s, [a, b, c, d]) == Moved(hash, Moved(hash, Moved(hash, Moved(hash, s, a), b), c), d)
  {
    assert [a, b, c, d][..3] == [a, b, c] && [a, b, c][..2] == [a, b] && [a, b][..1] == [a] && [a][..0] == [];
    assert MovedBy(hash, s, [a]) == Moved(hash, s, a);
    assert MovedBy(hash, s, [a, b]) == Moved(hash, Moved(hash, s, a), b);
  }

  /** No number on file has two hashes. */
  predicate OneHashEach(records: seq<Record>) {
    forall i, j :: 0 <= i < |records| && 0 <= j < |records| && records[i].message.sequence == records[j].message.sequence ==>
      records[i].messageHash == records[j].messageHash
  }

  ghost predicate AgreesWith(records: seq<Record>, r: Record) {
    forall i :: 0 <= i < |records| && records[i].message.sequence == r.message.sequence ==>
      records[i].messageHash == r.messageHash
  }

  lemma OneHashSplits(records: seq<Record>)
    requires records != []
    ensures
      var n := |records| - 1;
      OneHashEach(records) <==> OneHashEach(records[..n]) && AgreesWith(records[..n], records[n])
  {
    var n := |records| - 1;
    assert forall i :: 0 <= i < n ==> records[..n][i] == records[i];
  }

  /** Without a conflict the index has every number with its hash. */
  lemma {:induction false} IndexTells(records: seq<Record>, i: nat)
    requires IndexOf(records).conflict.None? && i < |records|
    ensures IndexesAt(IndexOf(records).seen, records, i)
  {
    var n := |records| - 1;
    if i < n {
      IndexTells(records[..n], i);
      assert records[..n][i] == records[i] && IndexesAt(IndexOf(records[..n]).seen, records[..n], i);
    }
  }

  lemma IndexedAgrees(index: Index, before: seq<Record>, r: Record)
    requires index.conflict.None? && forall i :: 0 <= i < |before| ==> IndexesAt(index.seen, before, i)
    requires r.message.sequence in index.seen ==> OnFile(before, r.message.sequence)
    ensures Indexed(index, r).conflict.None? <==> AgreesWith(before, r)
  {
    if r.message.sequence in index.seen {
      var i :| 0 <= i < |before| && before[i].message.sequence == r.message.sequence;
      assert IndexesAt(index.seen, before, i);
    }
    forall i | 0 <= i < |before| && before[i].message.sequence == r.message.sequence
      ensures r.message.sequence in index.seen && index.seen[r.message.sequence] == before[i].messageHash
    {
      assert IndexesAt(index.seen, before, i);
    }
  }

  lemma {:induction false} LastConflicts(records: seq<Record>)
    requires records != [] && IndexOf(records[..|records| - 1]).conflict.None?
    ensures IndexOf(records).conflict.None? <==> AgreesWith(records[..|records| - 1], records[|records| - 1])
  {
    var before, last := records[..|records| - 1], records[|records| - 1];
    var index := IndexOf(before);
    forall i | 0 <= i < |before| ensures IndexesAt(index.seen, before, i) {
      IndexTells(before, i);
    }
    if last.message.sequence in index.seen {
      IndexHoldsOnlyFile(before, last.message.sequence);
    }
    IndexedAgrees(index, before, last);
  }

  /** The indexing loop ends without a conflict exactly when no number on file has two hashes. */
  lemma {:induction false} ConflictExactly(records: seq<Record>)
    ensures IndexOf(records).conflict.None? <==> OneHashEach(records)
  {
    if records != [] {
      ConflictExactly(records[..|records| - 1]);
      OneHashSplits(records);
      if IndexOf(records[..|records| - 1]).conflict.None? {
        LastConflicts(records);
      }
    }
  }

  /** Over any messages and any restarts no held number is ever taken again exactly when the file the first
      object opened is intact and holds no two hashes under one number. */
  lemma RestartsExactly(hash: HashOf, file: seq<Record>)
    ensures (forall moves :: TakesNoHeld(hash, MovedBy(hash, State(file, None), moves)))
      <==> AllIntact(hash, file) && OneHashEach(file)
  {
    ConflictExactly(file);
    RestartsByIndex(hash, file);
  }

  lemma {:induction false} RestartsByIndex(hash: HashOf, file: seq<Record>)
    ensures (forall moves :: TakesNoHeld(hash, MovedBy(hash, State(file, None), moves)))
      <==> AllIntact(hash, file) && IndexOf(file).conflict.None?
  {
    var s := State(file, None);
    if Consistent(hash, s) {
      forall moves ensures TakesNoHeld(hash, MovedBy(hash, s, moves)) {
        MovesStayConsistent(hash, s, moves);
        ConsistentStays(hash, MovedBy(hash, s, moves), Restart);
        ReadyTakesNoHeld(hash, MovedBy(hash, s, moves));
      }
    } else if AllIntact(hash, file) {
      var moves := ConflictTakesAgain(hash, file);
    } else {
      var next := UncoveredTakesHeld(hash, s, Plain(0));
      assert [Arrive(Plain(0))][..0] == [];
      assert MovedBy(hash, s, [Arrive(Plain(0))]) == IngestRun(hash, s, Plain(0)).0;
      assert !TakesNoHeld(hash, MovedBy(hash, s, [Arrive(Plain(0))]));
    }
  }

  // ------------------------------------------------------------------ the class

  class Journal {
    var records: seq<Record>
    var identities: Option<map<int, string>>

    ghost function Contents(): State
      reads this
    {
      State(records, identities)
    }

    /** A new object over an existing file. */
    constructor (file: seq<Record>)
      ensures Contents() == State(file, None)
    {
      records, identities := file, None;
    }

    method ReadRecords(hash: HashOf) returns (line: Option<nat>)
      ensures line == (var n := IntactPrefix(hash, records); if n < |records| then Some(n + 1) else None)
    {
      for i := 0 to |records|
        invariant forall j :: 0 <= j < i ==> Intact(hash, records[j])
      {
        if hash(records[i].message) != records[i].messageHash {
          return Some(i + 1);
        }
      }
      return None;
    }

    method IdentityIndex(hash: HashOf) returns (fault: Option<IngestFault>)
      modifies this`identities
      ensures (Contents(), fault) == Load(hash, old(Contents()))
      ensures identities.Some?
    {
      if identities.Some? {
        return None;
      }
      identities := Some(map[]);
      var line := ReadRecords(hash);
      if line.Some? {
        return Some(HashMismatch(line.value));
      }
      for i := 0 to |records|
        invariant identities.Some? && IndexOf(records[..i]) == Index(identities.value, None)
        invariant records == old(records)
      {
        var k, digest := records[i].message.sequence, records[i].messageHash;
        assert records[..i + 1][..i] == records[..i];
        if k in identities.value && identities.value[k] != digest {
          StaysInConflict(records, i + 1);
          return Some(Conflict(k));
        }
        identities := Some(identities.value[k := digest]);
      }
      assert records[..|records|] == records;
      return None;
    }

    method Ingest(hash: HashOf, m: Incoming) returns (answer: Result<bool, IngestFault>)
      modifies this
      ensures (Contents(), answer) == IngestRun(hash, old(Contents()), m)
    {
      if m.channel == [] {
        return Err(NoChannel);
      }
      if m.sequence.None? || m.timestamp == [] {
        return Err(NoProvenance);
      }
      var digest, k := hash(MessageOf(m)), m.sequence.value;
      var fault := IdentityIndex(hash);
      if fault.Some? {
        return Err(fault.value);
      }
      if k in identities.value {
        return if identities.value[k] != digest then Err(Conflict(k)) else Ok(false);
      }
      records := records + [Record(MessageOf(m), digest)];
      identities := Some(identities.value[k := digest]);
      return Ok(true);
    }
  }
}

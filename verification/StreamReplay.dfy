/** Stream replay and the stream journal of microstream.py: deduplication, sequence accounting and the book,
    and the book fold of microstructure_features.py over the same records. */
module StreamReplay {
  import opened Prelude
  import opened OrderBook

  datatype Message = Message(channel: string, sequence: int, timestamp: string, events: seq<BookEvent>)

  datatype Record = Record(message: Message, messageHash: string)

  datatype Gap = Gap(after: int, before: int, missing: int)

  datatype OutOfOrder = OutOfOrder(previous: int, observed: int)

  datatype StreamFault = ConflictingDuplicate(sequence: int) | InBook(fault: BookFault)

  function LogicalChannel(channel: string): string { if channel == "l2_data" then "level2" else channel }

  // ------------------------------------------------------------------ sequence accounting

  datatype Account = Account(last: Option<int>, gaps: seq<Gap>, outOfOrder: seq<OutOfOrder>)

  const NO_ACCOUNT := Account(None, [], [])

  function Observe(a: Account, sequence: int): Account {
    match a.last
    case None => a.(last := Some(sequence))
    case Some(last) =>
      if sequence > last + 1 then a.(last := Some(sequence), gaps := a.gaps + [Gap(last, sequence, sequence - last - 1)])
      else if sequence < last then a.(outOfOrder := a.outOfOrder + [OutOfOrder(last, sequence)])
      else a.(last := Some(sequence))
  }

  function AccountOf(sequences: seq<int>): Account {
    if sequences == [] then NO_ACCOUNT
    else Observe(AccountOf(sequences[..|sequences| - 1]), sequences[|sequences| - 1])
  }

  function Missing(gaps: seq<Gap>): int {
    if gaps == [] then 0 else Missing(gaps[..|gaps| - 1]) + gaps[|gaps| - 1].missing
  }

  lemma {:induction false} MissingGrows(gaps: seq<Gap>, g: Gap)
    ensures Missing(gaps + [g]) == Missing(gaps) + g.missing
  {
    assert (gaps + [g])[..|gaps + [g]| - 1] == gaps;
  }

  ghost predicate Highest(sequences: seq<int>, last: int) {
    last in sequences && forall i :: 0 <= i < |sequences| ==> sequences[i] <= last
  }

  lemma {:induction false} LastIsHighest(sequences: seq<int>)
    requires sequences != []
    ensures AccountOf(sequences).last.Some? && Highest(sequences, AccountOf(sequences).last.value)
  {
    var n := |sequences| - 1;
    if n > 0 {
      LastIsHighest(sequences[..n]);
    }
    assert sequences[n] in sequences;
    assert forall i :: 0 <= i < n ==> sequences[i] == sequences[..n][i];
  }

  /** Every number between the first sequence and the highest is accounted for once: it arrived in order, or
      it is counted missing; what arrived out of order fills a gap or precedes the first. */
  lemma {:induction false} AccountingIdentity(sequences: seq<int>)
    requires Distinct(sequences) && sequences != []
    ensures
      var a := AccountOf(sequences);
      a.last.Some? && |sequences| + Missing(a.gaps) - |a.outOfOrder| == a.last.value - sequences[0] + 1
  {
    var n := |sequences| - 1;
    if n > 0 {
      var before := AccountOf(sequences[..n]);
      AccountingIdentity(sequences[..n]);
      LastIsHighest(sequences[..n]);
      var last, s := before.last.value, sequences[n];
      var i :| 0 <= i < n && sequences[..n][i] == last;
      assert s != last;
      MissingGrows(before.gaps, Gap(last, s, s - last - 1));
    }
  }

  ghost predicate Consecutive(sequences: seq<int>) {
    forall i :: 0 <= i < |sequences| ==> sequences[i] == sequences[0] + i
  }

  /** No gap and nothing out of order exactly when the sequence is consecutive. */
  lemma {:induction false} ConsecutiveExactly(sequences: seq<int>)
    requires Distinct(sequences)
    ensures
      var a := AccountOf(sequences);
      && (a.gaps == [] && a.outOfOrder == [] <==> Consecutive(sequences))
      && (a.gaps == [] && a.outOfOrder == [] && sequences != [] ==> a.last == Some(sequences[|sequences| - 1]))
  {
    if sequences != [] {
      var n := |sequences| - 1;
      ConsecutiveExactly(sequences[..n]);
      if n > 0 {
        LastIsHighest(sequences[..n]);
        var last := AccountOf(sequences[..n]).last.value;
        var i :| 0 <= i < n && sequences[..n][i] == last;
        assert sequences[n] != last;
        assert forall k :: 0 <= k < n ==> sequences[..n][k] == sequences[k];
        if Consecutive(sequences) {
          assert Consecutive(sequences[..n]);
          assert sequences[n] == sequences[0] + n && sequences[n - 1] == sequences[0] + (n - 1);
        }
      }
    }
  }

  // ------------------------------------------------------------------ the replay

  datatype Replayed = Replayed(
    records: nat, duplicates: nat, identities: map<int, string>, order: seq<int>, account: Account,
    lastByChannel: map<string, int>, book: Book, snapshots: nat, updates: nat, trades: nat, heartbeats: nat)

  const NOTHING := Replayed(0, 0, map[], [], NO_ACCOUNT, map[], EMPTY_BOOK, 0, 0, 0, 0)

  function CountKind(events: seq<BookEvent>, kind: EventKind): nat {
    if events == [] then 0
    else CountKind(events[..|events| - 1], kind) + (if events[|events| - 1].kind == kind then 1 else 0)
  }

  function Counted(s: Replayed, m: Message): Replayed {
    var channel := LogicalChannel(m.channel);
    var highest := if channel in s.lastByChannel then Max(m.sequence, s.lastByChannel[channel]) else m.sequence;
    s.(lastByChannel := s.lastByChannel[channel := highest],
       snapshots := s.snapshots + (if channel == "level2" then CountKind(m.events, SNAPSHOT) else 0),
       updates := s.updates + (if channel == "level2" then CountKind(m.events, UPDATE) else 0),
       trades := s.trades + (if channel == "market_trades" then 1 else 0),
       heartbeats := s.heartbeats + (if channel == "heartbeats" then 1 else 0))
  }

  function BookAfter(priceOf: PriceOf, b: Book, m: Message): Result<Book, BookFault> {
    if LogicalChannel(m.channel) != "level2" then Ok(b) else ApplyEvents(priceOf, b, m.events)
  }

  /** One record: a known sequence number must carry the same message and is only counted; a new one is
      accounted for and applied. `order` lists the numbers as they first appear. */
  function Process(priceOf: PriceOf, s: Replayed, r: Record): Result<Replayed, StreamFault> {
    var m := r.message;
    if m.sequence in s.identities then
      if s.identities[m.sequence] != r.messageHash then Err(ConflictingDuplicate(m.sequence))
      else Ok(s.(records := s.records + 1, duplicates := s.duplicates + 1))
    else match BookAfter(priceOf, s.book, m)
      case Err(fault) => Err(InBook(fault))
      case Ok(book) =>
        Ok(Counted(s, m).(records := s.records + 1, identities := s.identities[m.sequence := r.messageHash],
                          order := s.order + [m.sequence], account := Observe(s.account, m.sequence), book := book))
  }

  function Replay(priceOf: PriceOf, records: seq<Record>): Result<Replayed, StreamFault> {
    if records == [] then Ok(NOTHING)
    else match Replay(priceOf, records[..|records| - 1])
      case Err(f) => Err(f)
      case Ok(before) => Process(priceOf, before, records[|records| - 1])
  }

  lemma {:induction false} ReplayFaultStays(priceOf: PriceOf, records: seq<Record>, i: nat)
    requires i <= |records| && Replay(priceOf, records[..i]).Err?
    ensures Replay(priceOf, records) == Replay(priceOf, records[..i])
    decreases |records|
  {
    var n := |records| - 1;
    if i == |records| {
      assert records[..i] == records;
    } else {
      assert records[..n][..i] == records[..i];
      ReplayFaultStays(priceOf, records[..n], i);
    }
  }

  /** The accounting statements of the loop body. */
  method TakeAccount(a: Account, sequence: int) returns (r: Account)
    ensures r == Observe(a, sequence)
  {
    var gaps, outOfOrder := a.gaps, a.outOfOrder;
    if a.last.Some? && sequence > a.last.value + 1 {
      gaps := gaps + [Gap(a.last.value, sequence, sequence - a.last.value - 1)];
    } else if a.last.Some? && sequence < a.last.value {
      outOfOrder := outOfOrder + [OutOfOrder(a.last.value, sequence)];
    }
    return Account(Some(if a.last.Some? then Max(sequence, a.last.value) else sequence), gaps, outOfOrder);
  }

  /** The loop body of replay_records. */
  method ReplayRecord(priceOf: PriceOf, s: Replayed, r: Record) returns (next: Result<Replayed, StreamFault>)
    ensures next == Process(priceOf, s, r)
  {
    var m := r.message;
    if m.sequence in s.identities {
      if s.identities[m.sequence] != r.messageHash {
        return Err(ConflictingDuplicate(m.sequence));
      }
      return Ok(s.(records := s.records + 1, duplicates := s.duplicates + 1));
    }
    var account := TakeAccount(s.account, m.sequence);
    var book := s.book;
    if LogicalChannel(m.channel) == "level2" {
      var folded := FoldEvents(priceOf, book, m.events);
      if folded.Err? {
        return Err(InBook(folded.error));
      }
      book := folded.value;
    }
    return Ok(Counted(s, m).(records := s.records + 1, identities := s.identities[m.sequence := r.messageHash],
                             order := s.order + [m.sequence], account := account, book := book));
  }

  /** The loop of replay_records. */
  method ReplayRecords(priceOf: PriceOf, records: seq<Record>) returns (r: Result<Replayed, StreamFault>)
    ensures r == Replay(priceOf, records)
  {
    var s := NOTHING;
    for i := 0 to |records|
      invariant Replay(priceOf, records[..i]) == Ok(s)
    {
      assert records[..i + 1][..i] == records[..i];
      var next := ReplayRecord(priceOf, s, records[i]);
      if next.Err? {
        ReplayFaultStays(priceOf, records, i + 1);
        return next;
      }
      s := next.value;
    }
    assert records[..|records|] == records;
    return Ok(s);
  }

  ghost predicate SameKeys(identities: map<int, string>, order: seq<int>) {
    && Distinct(order) && |identities| == |order|
    && forall k :: k in identities <==> k in order
  }

  ghost predicate Accounted(s: Replayed) {
    SameKeys(s.identities, s.order) && s.account == AccountOf(s.order) && s.records == |s.order| + s.duplicates
  }

  lemma NewKey(identities: map<int, string>, order: seq<int>, k: int, digest: string)
    requires SameKeys(identities, order) && k !in identities
    ensures SameKeys(identities[k := digest], order + [k])
  {
  }

  lemma {:induction false} NextAccount(order: seq<int>, k: int)
    ensures AccountOf(order + [k]) == Observe(AccountOf(order), k)
  {
    assert (order + [k])[..|order + [k]| - 1] == order;
  }

  lemma ProcessAccounts(priceOf: PriceOf, s: Replayed, r: Record)
    requires Accounted(s) && Process(priceOf, s, r).Ok?
    ensures Accounted(Process(priceOf, s, r).value)
  {
    var k := r.message.sequence;
    if k !in s.identities {
      NewKey(s.identities, s.order, k, r.messageHash);
      NextAccount(s.order, k);
    }
  }

  lemma {:induction false} ReplayIsAccounted(priceOf: PriceOf, records: seq<Record>)
    requires Replay(priceOf, records).Ok?
    ensures Accounted(Replay(priceOf, records).value) && Replay(priceOf, records).value.records == |records|
  {
    if records != [] {
      var n := |records| - 1;
      ReplayIsAccounted(priceOf, records[..n]);
      ProcessAccounts(priceOf, Replay(priceOf, records[..n]).value, records[n]);
    }
  }

  lemma {:induction false} FirstIsFirst(priceOf: PriceOf, records: seq<Record>)
    requires Replay(priceOf, records).Ok? && records != []
    ensures
      var s := Replay(priceOf, records).value;
      s.order != [] && s.order[0] == records[0].message.sequence
  {
    var n := |records| - 1;
    if n > 0 {
      FirstIsFirst(priceOf, records[..n]);
    } else {
      assert records[..0] == [];
    }
  }

  /** What the reported figures say: with first and last sequence number, the number of different messages,
      of missing ones and of those out of order determine each other; and a stream without gaps and without
      anything out of order is exactly a consecutive one. */
  lemma {:induction false} ReplayAccounts(priceOf: PriceOf, records: seq<Record>)
    requires Replay(priceOf, records).Ok? && records != []
    ensures
      var s := Replay(priceOf, records).value;
      && s.records == |records| == |s.identities| + s.duplicates
      && s.account.last.Some?
      && |s.identities| + Missing(s.account.gaps) - |s.account.outOfOrder|
         == s.account.last.value - records[0].message.sequence + 1
      && Highest(s.order, s.account.last.value)
      && (s.account.gaps == [] && s.account.outOfOrder == [] <==> Consecutive(s.order))
  {
    ReplayIsAccounted(priceOf, records);
    FirstIsFirst(priceOf, records);
    var order := Replay(priceOf, records).value.order;
    ConsecutiveExactly(order);
    AccountingIdentity(order);
    LastIsHighest(order);
  }

  // ------------------------------------------------------------------ duplicates

  /** Everything but how many records and duplicates were seen. */
  function Apart(s: Replayed): Replayed { s.(records := 0, duplicates := 0) }

  ghost predicate OnlyCountsDiffer(a: Result<Replayed, StreamFault>, b: Result<Replayed, StreamFault>) {
    && (a.Ok? <==> b.Ok?)
    && (a.Err? ==> a.error == b.error)
    && (a.Ok? ==> Apart(a.value) == Apart(b.value)
                  && b.value.records == a.value.records + 1 && b.value.duplicates == a.value.duplicates + 1)
  }

  lemma ProcessIgnoresCounts(priceOf: PriceOf, a: Replayed, b: Replayed, r: Record)
    requires OnlyCountsDiffer(Ok(a), Ok(b))
    ensures OnlyCountsDiffer(Process(priceOf, a, r), Process(priceOf, b, r))
  {
  }

  lemma {:induction false} OneMoreRecord(priceOf: PriceOf, records: seq<Record>, r: Record)
    ensures Replay(priceOf, records + [r])
      == match Replay(priceOf, records) case Err(f) => Err(f) case Ok(before) => Process(priceOf, before, r)
  {
    assert (records + [r])[..|records + [r]| - 1] == records;
  }

  lemma {:induction false} DuplicateAtEnd(priceOf: PriceOf, before: seq<Record>, i: nat)
    requires i < |before| && Replay(priceOf, before).Ok?
    ensures OnlyCountsDiffer(Replay(priceOf, before), Replay(priceOf, before + [before[i]]))
  {
    SeenAreKnown(priceOf, before, i);
    OneMoreRecord(priceOf, before, before[i]);
  }

  lemma {:induction false} CountsStayApart(priceOf: PriceOf, a: seq<Record>, b: seq<Record>, r: Record)
    requires OnlyCountsDiffer(Replay(priceOf, a), Replay(priceOf, b))
    ensures OnlyCountsDiffer(Replay(priceOf, a + [r]), Replay(priceOf, b + [r]))
  {
    OneMoreRecord(priceOf, a, r);
    OneMoreRecord(priceOf, b, r);
    if Replay(priceOf, a).Ok? {
      ProcessIgnoresCounts(priceOf, Replay(priceOf, a).value, Replay(priceOf, b).value, r);
    }
  }

  /** A record that repeats an earlier one, put in anywhere later, changes the record count and the duplicate
      count by one and nothing else. */
  lemma {:induction false} DuplicatesAreInert(priceOf: PriceOf, before: seq<Record>, i: nat, more: seq<Record>)
    requires i < |before| && Replay(priceOf, before).Ok?
    ensures OnlyCountsDiffer(Replay(priceOf, before + more), Replay(priceOf, before + [before[i]] + more))
    decreases |more|
  {
    var longer := before + [before[i]];
    if more == [] {
      assert before + more == before && longer + more == longer;
      DuplicateAtEnd(priceOf, before, i);
    } else {
      var n := |more| - 1;
      DuplicatesAreInert(priceOf, before, i, more[..n]);
      assert before + more == before + more[..n] + [more[n]] && longer + more == longer + more[..n] + [more[n]];
      CountsStayApart(priceOf, before + more[..n], longer + more[..n], more[n]);
    }
  }

  lemma {:induction false} SeenAreKnown(priceOf: PriceOf, records: seq<Record>, i: nat)
    requires i < |records| && Replay(priceOf, records).Ok?
    ensures
      var s, r := Replay(priceOf, records).value, records[i];
      r.message.sequence in s.identities && s.identities[r.message.sequence] == r.messageHash
  {
    if i < |records| - 1 {
      SeenAreKnown(priceOf, records[..|records| - 1], i);
    }
  }

  // ------------------------------------------------------------------ the feature fold

  /** The book of public_microstructure_distributions, which applies every record it is given. */
  function FeatureBook(priceOf: PriceOf, records: seq<Record>): Result<Book, BookFault> {
    if records == [] then Ok(EMPTY_BOOK)
    else match FeatureBook(priceOf, records[..|records| - 1])
      case Err(f) => Err(f)
      case Ok(before) => BookAfter(priceOf, before, records[|records| - 1].message)
  }

  lemma {:induction false} FeatureFaultStays(priceOf: PriceOf, records: seq<Record>, i: nat)
    requires i <= |records| && FeatureBook(priceOf, records[..i]).Err?
    ensures FeatureBook(priceOf, records) == FeatureBook(priceOf, records[..i])
    decreases |records|
  {
    var n := |records| - 1;
    if i == |records| {
      assert records[..i] == records;
    } else {
      assert records[..n][..i] == records[..i];
      FeatureFaultStays(priceOf, records[..n], i);
    }
  }

  /** The loop of the feature fold: no deduplication, other channels skipped. */
  method FoldFeatureBook(priceOf: PriceOf, records: seq<Record>) returns (r: Result<Book, BookFault>)
    ensures r == FeatureBook(priceOf, records)
  {
    var book := EMPTY_BOOK;
    for i := 0 to |records|
      invariant FeatureBook(priceOf, records[..i]) == Ok(book)
    {
      assert records[..i + 1][..i] == records[..i];
      if LogicalChannel(records[i].message.channel) != "level2" {
        continue;
      }
      var folded := FoldEvents(priceOf, book, records[i].message.events);
      if folded.Err? {
        FeatureFaultStays(priceOf, records, i + 1);
        return folded;
      }
      book := folded.value;
    }
    assert records[..|records|] == records;
    return Ok(book);
  }

  ghost predicate DistinctSequences(records: seq<Record>) {
    forall i, j :: 0 <= i < j < |records| ==> records[i].message.sequence != records[j].message.sequence
  }

  lemma {:induction false} KnownWereSeen(priceOf: PriceOf, records: seq<Record>, sequence: int)
    requires Replay(priceOf, records).Ok? && sequence in Replay(priceOf, records).value.identities
    ensures exists i :: 0 <= i < |records| && records[i].message.sequence == sequence
  {
    if records != [] {
      var n := |records| - 1;
      if sequence in Replay(priceOf, records[..n]).value.identities {
        KnownWereSeen(priceOf, records[..n], sequence);
        var i :| 0 <= i < n && records[..n][i].message.sequence == sequence;
        assert records[i].message.sequence == sequence;
      } else {
        assert records[n].message.sequence == sequence;
      }
    }
  }

  /** On a journal without repeated numbers both folds hold the same book, or fail alike. */
  lemma {:induction false} BooksAgree(priceOf: PriceOf, records: seq<Record>)
    requires DistinctSequences(records)
    ensures
      var replay, feature := Replay(priceOf, records), FeatureBook(priceOf, records);
      && (replay.Ok? <==> feature.Ok?)
      && (replay.Ok? ==> replay.value.book == feature.value && replay.value.duplicates == 0)
      && (replay.Err? ==> replay.error == InBook(feature.error))
  {
    if records != [] {
      var n := |records| - 1;
      BooksAgree(priceOf, records[..n]);
      if Replay(priceOf, records[..n]).Ok? && records[n].message.sequence in Replay(priceOf, records[..n]).value.identities {
        KnownWereSeen(priceOf, records[..n], records[n].message.sequence);
      }
    }
  }

  function BookEvents(records: seq<Record>): seq<BookEvent> {
    if records == [] then []
    else
      var m := records[|records| - 1].message;
      BookEvents(records[..|records| - 1]) + (if LogicalChannel(m.channel) == "level2" then m.events else [])
  }

  lemma {:induction false} EventsConcat(priceOf: PriceOf, b: Book, first: seq<BookEvent>, second: seq<BookEvent>)
    ensures ApplyEvents(priceOf, b, first + second)
      == match ApplyEvents(priceOf, b, first) case Err(f) => Err(f) case Ok(middle) => ApplyEvents(priceOf, middle, second)
    decreases |second|
  {
    if second == [] {
      assert first + second == first;
    } else {
      assert (first + second)[..|first + second| - 1] == first + second[..|second| - 1];
      EventsConcat(priceOf, b, first, second[..|second| - 1]);
    }
  }

  lemma {:induction false} FeatureBookIsFold(priceOf: PriceOf, records: seq<Record>)
    ensures FeatureBook(priceOf, records) == ApplyEvents(priceOf, EMPTY_BOOK, BookEvents(records))
  {
    if records != [] {
      var n := |records| - 1;
      FeatureBookIsFold(priceOf, records[..n]);
      var m := records[n].message;
      EventsConcat(priceOf, EMPTY_BOOK, BookEvents(records[..n]), if LogicalChannel(m.channel) == "level2" then m.events else []);
    }
  }

  /** On a journal without repeated numbers both books are the last write to each level since the last snapshot. */
  lemma {:induction false} BothAreLastWrite(priceOf: PriceOf, records: seq<Record>)
    requires DistinctSequences(records) && Replay(priceOf, records).Ok?
    ensures FeatureBook(priceOf, records) == Ok(Replay(priceOf, records).value.book)
    ensures Shows(Replay(priceOf, records).value.book, SinceSnapshot(BookEvents(records)))
  {
    BooksAgree(priceOf, records);
    FeatureBookIsFold(priceOf, records);
    BookIsLastWrite(priceOf, BookEvents(records));
  }
}

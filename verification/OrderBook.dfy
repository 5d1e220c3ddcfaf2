/** The order book that level-2 messages build: the fold that microstream.py and microstructure_features.py
    each write out, and what it comes to. */
module OrderBook {
  import opened Prelude

  datatype Side = BID | OFFER | UNKNOWN_SIDE
  datatype EventKind = SNAPSHOT | UPDATE | OTHER_KIND

  /** A level is keyed by the text of its price. */
  datatype LevelUpdate = LevelUpdate(side: Side, price: string, quantity: real)

  datatype BookEvent = BookEvent(kind: EventKind, updates: seq<LevelUpdate>)

  datatype Book = Book(bids: map<string, real>, asks: map<string, real>)

  datatype BookFault = UpdatePrecedesSnapshot | NegativeQuantity | UnknownBookSide | CrossedOrLocked

  const EMPTY_BOOK := Book(map[], map[])

  /** The number a price text denotes. */
  type PriceOf = string -> real

  predicate IsEmpty(b: Book) { b.bids == map[] && b.asks == map[] }

  function Level(levels: map<string, real>, price: string, quantity: real): map<string, real> {
    if quantity == 0.0 then levels - {price} else levels[price := quantity]
  }

  function ApplyUpdate(b: Book, u: LevelUpdate): Result<Book, BookFault> {
    if u.quantity < 0.0 then Err(NegativeQuantity)
    else match u.side
      case BID => Ok(b.(bids := Level(b.bids, u.price, u.quantity)))
      case OFFER => Ok(b.(asks := Level(b.asks, u.price, u.quantity)))
      case UNKNOWN_SIDE => Err(UnknownBookSide)
  }

  function ApplyUpdates(b: Book, updates: seq<LevelUpdate>): Result<Book, BookFault> {
    if updates == [] then Ok(b)
    else match ApplyUpdates(b, updates[..|updates| - 1])
      case Err(f) => Err(f)
      case Ok(before) => ApplyUpdate(before, updates[|updates| - 1])
  }

  /** Some bid at or above some ask. */
  predicate Crossed(priceOf: PriceOf, b: Book) {
    exists p, q :: p in b.bids && q in b.asks && priceOf(p) >= priceOf(q)
  }

  function ApplyEvent(priceOf: PriceOf, b: Book, e: BookEvent): Result<Book, BookFault> {
    if e.kind.UPDATE? && IsEmpty(b) then Err(UpdatePrecedesSnapshot)
    else match ApplyUpdates(if e.kind.SNAPSHOT? then EMPTY_BOOK else b, e.updates)
      case Err(f) => Err(f)
      case Ok(after) => if Crossed(priceOf, after) then Err(CrossedOrLocked) else Ok(after)
  }

  function ApplyEvents(priceOf: PriceOf, b: Book, events: seq<BookEvent>): Result<Book, BookFault> {
    if events == [] then Ok(b)
    else match ApplyEvents(priceOf, b, events[..|events| - 1])
      case Err(f) => Err(f)
      case Ok(before) => ApplyEvent(priceOf, before, events[|events| - 1])
  }

  lemma {:induction false} UpdateFaultStays(b: Book, updates: seq<LevelUpdate>, i: nat)
    requires i <= |updates| && ApplyUpdates(b, updates[..i]).Err?
    ensures ApplyUpdates(b, updates) == ApplyUpdates(b, updates[..i])
    decreases |updates|
  {
    var n := |updates| - 1;
    if i == |updates| {
      assert updates[..i] == updates;
    } else {
      assert updates[..n][..i] == updates[..i];
      UpdateFaultStays(b, updates[..n], i);
    }
  }

  lemma {:induction false} EventFaultStays(priceOf: PriceOf, b: Book, events: seq<BookEvent>, i: nat)
    requires i <= |events| && ApplyEvents(priceOf, b, events[..i]).Err?
    ensures ApplyEvents(priceOf, b, events) == ApplyEvents(priceOf, b, events[..i])
    decreases |events|
  {
    var n := |events| - 1;
    if i == |events| {
      assert events[..i] == events;
    } else {
      assert events[..n][..i] == events[..i];
      EventFaultStays(priceOf, b, events[..n], i);
    }
  }

  /** The inner loop over one event's updates, on the two dictionaries. */
  method FoldUpdates(b: Book, updates: seq<LevelUpdate>) returns (r: Result<Book, BookFault>)
    ensures r == ApplyUpdates(b, updates)
  {
    var bids, asks := b.bids, b.asks;
    for i := 0 to |updates|
      invariant ApplyUpdates(b, updates[..i]) == Ok(Book(bids, asks))
    {
      var u := updates[i];
      assert updates[..i + 1][..i] == updates[..i];
      if u.quantity < 0.0 || u.side.UNKNOWN_SIDE? {
        UpdateFaultStays(b, updates, i + 1);
        return Err(if u.quantity < 0.0 then NegativeQuantity else UnknownBookSide);
      }
      if u.side.BID? {
        bids := if u.quantity == 0.0 then bids - {u.price} else bids[u.price := u.quantity];
      } else {
        asks := if u.quantity == 0.0 then asks - {u.price} else asks[u.price := u.quantity];
      }
    }
    assert updates[..|updates|] == updates;
    return Ok(Book(bids, asks));
  }

  /** The loop over the events of a level-2 message. */
  method FoldEvents(priceOf: PriceOf, start: Book, events: seq<BookEvent>) returns (r: Result<Book, BookFault>)
    ensures r == ApplyEvents(priceOf, start, events)
  {
    var book := start;
    for i := 0 to |events|
      invariant ApplyEvents(priceOf, start, events[..i]) == Ok(book)
    {
      assert events[..i + 1][..i] == events[..i];
      if events[i].kind.SNAPSHOT? {
        book := EMPTY_BOOK;
      } else if events[i].kind.UPDATE? && IsEmpty(book) {
        EventFaultStays(priceOf, start, events, i + 1);
        return Err(UpdatePrecedesSnapshot);
      }
      var folded := FoldUpdates(book, events[i].updates);
      if folded.Err? {
        EventFaultStays(priceOf, start, events, i + 1);
        return folded;
      }
      book := folded.value;
      if Crossed(priceOf, book) {
        EventFaultStays(priceOf, start, events, i + 1);
        return Err(CrossedOrLocked);
      }
    }
    assert events[..|events|] == events;
    return Ok(book);
  }

  // ------------------------------------------------------------------ last write wins

  /** What the last update of a level says, if it was updated at all. */
  function LastWrite(updates: seq<LevelUpdate>, side: Side, price: string): Option<real> {
    if updates == [] then None
    else
      var u := updates[|updates| - 1];
      if u.side == side && u.price == price then Some(u.quantity) else LastWrite(updates[..|updates| - 1], side, price)
  }

  /** The updates since the last snapshot, that snapshot's own included. */
  function SinceSnapshot(events: seq<BookEvent>): seq<LevelUpdate> {
    if events == [] then []
    else
      var e := events[|events| - 1];
      if e.kind.SNAPSHOT? then e.updates else SinceSnapshot(events[..|events| - 1]) + e.updates
  }

  function Shown(levels: map<string, real>, price: string): real { if price in levels then levels[price] else 0.0 }

  function Standing(updates: seq<LevelUpdate>, side: Side, price: string): real {
    match LastWrite(updates, side, price)
    case None => 0.0
    case Some(quantity) => quantity
  }

  ghost predicate Shows(b: Book, updates: seq<LevelUpdate>) {
    && (forall p :: Shown(b.bids, p) == Standing(updates, BID, p))
    && (forall p :: Shown(b.asks, p) == Standing(updates, OFFER, p))
    && (forall p :: p in b.bids ==> b.bids[p] > 0.0) && (forall p :: p in b.asks ==> b.asks[p] > 0.0)
  }

  lemma UpdateShows(b: Book, updates: seq<LevelUpdate>, u: LevelUpdate)
    requires Shows(b, updates) && ApplyUpdate(b, u).Ok?
    ensures Shows(ApplyUpdate(b, u).value, updates + [u])
  {
    var after := ApplyUpdate(b, u).value;
    assert (updates + [u])[..|updates + [u]| - 1] == updates;
    forall p ensures Shown(after.bids, p) == Standing(updates + [u], BID, p) {
      assert Shown(b.bids, p) == Standing(updates, BID, p);
    }
    forall p ensures Shown(after.asks, p) == Standing(updates + [u], OFFER, p) {
      assert Shown(b.asks, p) == Standing(updates, OFFER, p);
    }
  }

  lemma {:induction false} UpdatesShow(b: Book, before: seq<LevelUpdate>, updates: seq<LevelUpdate>)
    requires Shows(b, before) && ApplyUpdates(b, updates).Ok?
    ensures Shows(ApplyUpdates(b, updates).value, before + updates)
    decreases |updates|
  {
    if updates == [] {
      assert before + updates == before;
    } else {
      var n := |updates| - 1;
      UpdatesShow(b, before, updates[..n]);
      UpdateShows(ApplyUpdates(b, updates[..n]).value, before + updates[..n], updates[n]);
      assert before + updates[..n] + [updates[n]] == before + updates;
    }
  }

  /** The book is the last write to every level since the last snapshot; a level last written to 0 is gone. */
  lemma {:induction false} BookIsLastWrite(priceOf: PriceOf, events: seq<BookEvent>)
    requires ApplyEvents(priceOf, EMPTY_BOOK, events).Ok?
    ensures Shows(ApplyEvents(priceOf, EMPTY_BOOK, events).value, SinceSnapshot(events))
  {
    if events != [] {
      var n, e := |events| - 1, events[|events| - 1];
      BookIsLastWrite(priceOf, events[..n]);
      var before := ApplyEvents(priceOf, EMPTY_BOOK, events[..n]).value;
      if e.kind.SNAPSHOT? {
        UpdatesShow(EMPTY_BOOK, [], e.updates);
        assert [] + e.updates == e.updates;
      } else {
        UpdatesShow(before, SinceSnapshot(events[..n]), e.updates);
      }
    }
  }

  ghost predicate NothingStands(updates: seq<LevelUpdate>) {
    forall p :: Standing(updates, BID, p) == 0.0 && Standing(updates, OFFER, p) == 0.0
  }

  lemma EmptyShowsNothing(b: Book, updates: seq<LevelUpdate>)
    requires Shows(b, updates)
    ensures IsEmpty(b) <==> NothingStands(updates)
  {
    if NothingStands(updates) {
      forall p ensures p !in b.bids && p !in b.asks {
        assert Standing(updates, BID, p) == 0.0;
        assert Shown(b.bids, p) == 0.0 && Shown(b.asks, p) == 0.0;
      }
    }
    if IsEmpty(b) {
      forall p ensures Standing(updates, BID, p) == 0.0 && Standing(updates, OFFER, p) == 0.0 {
        assert Shown(b.bids, p) == 0.0 && Shown(b.asks, p) == 0.0;
      }
    }
  }

  /** An update is refused exactly when the book is empty, also when a snapshot came before and later
      updates removed every level. */
  lemma {:induction false} EmptyBookRefusesUpdates(priceOf: PriceOf, events: seq<BookEvent>, e: BookEvent)
    requires ApplyEvents(priceOf, EMPTY_BOOK, events).Ok? && e.kind.UPDATE?
    ensures ApplyEvents(priceOf, EMPTY_BOOK, events + [e]) == Err(UpdatePrecedesSnapshot)
      <==> NothingStands(SinceSnapshot(events))
  {
    var b := ApplyEvents(priceOf, EMPTY_BOOK, events).value;
    assert (events + [e])[..|events + [e]| - 1] == events;
    BookIsLastWrite(priceOf, events);
    EmptyShowsNothing(b, SinceSnapshot(events));
    UpdatesNeverPrecede(b, e.updates);
  }

  lemma {:induction false} UpdatesNeverPrecede(b: Book, updates: seq<LevelUpdate>)
    ensures ApplyUpdates(b, updates) != Err(UpdatePrecedesSnapshot)
  {
    if updates != [] {
      UpdatesNeverPrecede(b, updates[..|updates| - 1]);
    }
  }

  const ONE_BID := BookEvent(SNAPSHOT, [LevelUpdate(BID, "100", 1.0)])
  const BID_GONE := BookEvent(UPDATE, [LevelUpdate(BID, "100", 0.0)])
  const BID_BACK := BookEvent(UPDATE, [LevelUpdate(BID, "99", 1.0)])

  lemma {:induction false} OneUpdate(b: Book, u: LevelUpdate)
    ensures ApplyUpdates(b, [u]) == ApplyUpdate(b, u)
  {
    assert [u][..0] == [];
  }

  lemma {:induction false} OneMoreEvent(priceOf: PriceOf, b: Book, events: seq<BookEvent>, e: BookEvent)
    requires ApplyEvents(priceOf, b, events).Ok?
    ensures ApplyEvents(priceOf, b, events + [e]) == ApplyEvent(priceOf, ApplyEvents(priceOf, b, events).value, e)
  {
    assert (events + [e])[..|events|] == events;
  }

  /** One such history: a snapshot of one bid, an update that removes it, and an update that is refused
      although a snapshot came before. */
  lemma EmptiedBookRefuses(priceOf: PriceOf)
    ensures ApplyEvents(priceOf, EMPTY_BOOK, [ONE_BID]) == Ok(Book(map["100" := 1.0], map[]))
    ensures ApplyEvents(priceOf, EMPTY_BOOK, [ONE_BID, BID_GONE]) == Ok(EMPTY_BOOK)
    ensures ApplyEvents(priceOf, EMPTY_BOOK, [ONE_BID, BID_GONE, BID_BACK]) == Err(UpdatePrecedesSnapshot)
  {
    var book := Book(map["100" := 1.0], map[]);
    assert [] + [ONE_BID] == [ONE_BID] && [ONE_BID] + [BID_GONE] == [ONE_BID, BID_GONE];
    assert [ONE_BID, BID_GONE] + [BID_BACK] == [ONE_BID, BID_GONE, BID_BACK];
    OneUpdate(EMPTY_BOOK, ONE_BID.updates[0]);
    OneUpdate(book, BID_GONE.updates[0]);
    assert EMPTY_BOOK.bids["100" := 1.0] == book.bids && book.bids - {"100"} == map[];
    OneMoreEvent(priceOf, EMPTY_BOOK, [], ONE_BID);
    OneMoreEvent(priceOf, EMPTY_BOOK, [ONE_BID], BID_GONE);
    OneMoreEvent(priceOf, EMPTY_BOOK, [ONE_BID, BID_GONE], BID_BACK);
  }
}

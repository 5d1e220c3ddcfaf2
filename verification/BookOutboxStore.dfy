/** BookOutbox on its three directories, and the sweep over everything pending. */
module BookOutboxStore {
  import opened Prelude
  import opened Sorting
  import opened BookOutbox

  // ------------------------------------------------------------------ the sweep

  datatype Sweep = Sweep(states: seq<Box>, result: Result<seq<Record>, Fault>)

  type Book = string -> Response

  type Courier = (Box, string) -> Run

  function CourierOf(digest: Digest, book: Book, now: string): Courier {
    (b, id) => DeliverRun(digest, b, id, book(id), now)
  }

  /** deliver_pending over the ids listed at its start: the first delivery that raises ends it. */
  function SweepRun(deliver: Courier, b: Box, ids: seq<string>): Sweep
    decreases |ids|
  {
    if ids == [] then Sweep([], Ok([]))
    else
      var run := deliver(b, ids[0]);
      match run.result
      case Err(fault) => Sweep(run.states, Err(fault))
      case Ok(record) =>
        var rest := SweepRun(deliver, Final(b, run.states), ids[1..]);
        Sweep(run.states + rest.states,
              match rest.result case Err(fault) => Err(fault) case Ok(records) => Ok([record] + records))
  }

  ghost predicate SameCopies(a: Box, b: Box, id: string) {
    && (id in a.pending <==> id in b.pending) && (id in a.pending ==> b.pending[id] == a.pending[id])
    && (id in a.acknowledged <==> id in b.acknowledged) && (id in a.quarantined <==> id in b.quarantined)
  }

  lemma QuarantineIsLocal(b: Box, id: string, reason: string, rulings: seq<Ruling>, other: string)
    requires other != id
    ensures SameCopies(b, Final(b, QuarantineRun(b, id, reason, rulings).states), other)
  {
  }

  lemma SettleIsLocal(b: Box, id: string, response: Response, now: string, other: string)
    requires other != id && id in b.pending
    ensures
      var run := SettleRun(b, id, response, now);
      SameCopies(b, Final(b, run.states), other)
  {
    match response {
      case Permanent(reason) => QuarantineIsLocal(b, id, reason, b.rulings, other);
      case Trouble(error) =>
      case Answered(a) =>
        if !a.accepted || a.receiptId != id {
          QuarantineIsLocal(b, id, "Book returned an invalid acceptance receipt", b.rulings, other);
        }
    }
  }

  lemma DeliveryIsLocal(digest: Digest, b: Box, id: string, response: Response, now: string, other: string)
    requires other != id
    ensures SameCopies(b, Final(b, DeliverRun(digest, b, id, response, now).states), other)
  {
    if id in b.pending {
      var r := b.pending[id];
      if digest(PayloadBytes(r.payload)) != r.payloadDigest {
        QuarantineIsLocal(b, id, "stored payload digest mismatch", b.rulings, other);
      } else if digest(EnvelopeBytes(r.envelope)) != r.envelopeDigest {
        QuarantineIsLocal(b, id, "stored envelope digest mismatch", b.rulings, other);
      } else {
        var attempted := b.(pending := b.pending[id := Attempted(r, now)]);
        var answered := attempted.(rulings := b.rulings + [Ruling(id, ByBook(EvidenceOf(r), response))]);
        SettleIsLocal(answered, id, response, now, other);
        FinalOfBoth(b, [attempted, answered], SettleRun(answered, id, response, now).states);
      }
    }
  }

  lemma DeliveryRaises(digest: Digest, b: Box, id: string, response: Response, now: string)
    requires Sound(digest, b) && id in b.pending
    ensures DeliverRun(digest, b, id, response, now).result.Err? <==> response == Permanent("")
    ensures
      var after := Final(b, DeliverRun(digest, b, id, response, now).states);
      Sound(digest, after) && (response == Permanent("") ==> id in after.pending)
  {
    assert SoundAt(digest, b, id);
    DeliverIsSound(digest, b, id, response, now);
  }

  ghost predicate AllPending(b: Box, ids: seq<string>) {
    forall id :: id in ids ==> id in b.pending
  }

  ghost predicate NoBareRefusal(ids: seq<string>, book: Book) {
    forall id :: id in ids ==> book(id) != Permanent("")
  }

  ghost predicate OnlyTroubleLeft(b: Box, ids: seq<string>, book: Book) {
    forall id :: id in ids ==> (id in b.pending <==> book(id).Trouble?)
  }

  ghost predicate OthersSame(a: Box, b: Box, ids: seq<string>) {
    forall k :: k !in ids ==> SameCopies(a, b, k)
  }

  lemma FinalOfBoth(b: Box, first: seq<Box>, rest: seq<Box>)
    ensures Final(b, first + rest) == Final(Final(b, first), rest)
  {
  }

  lemma HeadAndTail(ids: seq<string>)
    requires ids != []
    ensures forall id :: id in ids <==> id == ids[0] || id in ids[1..]
    ensures Distinct(ids) ==> ids[0] !in ids[1..] && Distinct(ids[1..])
  {
    assert ids == [ids[0]] + ids[1..];
  }

  /** The first delivery of a sweep. */
  lemma FirstDelivery(digest: Digest, b: Box, ids: seq<string>, book: Book, now: string)
    requires Sound(digest, b) && AllPending(b, ids) && Distinct(ids) && ids != []
    ensures
      var run := DeliverRun(digest, b, ids[0], book(ids[0]), now);
      var next := Final(b, run.states);
      && (run.result.Ok? <==> book(ids[0]) != Permanent(""))
      && Sound(digest, next) && OthersSame(b, next, [ids[0]]) && AllPending(next, ids[1..])
      && (run.result.Ok? ==> (ids[0] in next.pending <==> book(ids[0]).Trouble?))
  {
    var id := ids[0];
    var next := Final(b, DeliverRun(digest, b, id, book(id), now).states);
    HeadAndTail(ids);
    DeliveryRaises(digest, b, id, book(id), now);
    DeliveryClears(digest, b, id, book(id), now);
    forall k | k != id ensures SameCopies(b, next, k) {
      DeliveryIsLocal(digest, b, id, book(id), now, k);
    }
    forall k | k in ids[1..] ensures k in next.pending {
      assert SameCopies(b, next, k);
    }
  }

  lemma SweepStep(b: Box, next: Box, after: Box, ids: seq<string>, book: Book)
    requires ids != [] && Distinct(ids)
    requires OthersSame(b, next, [ids[0]]) && OthersSame(next, after, ids[1..])
    requires ids[0] in next.pending <==> book(ids[0]).Trouble?
    ensures OthersSame(b, after, ids)
    ensures OnlyTroubleLeft(after, ids[1..], book) ==> OnlyTroubleLeft(after, ids, book)
  {
    HeadAndTail(ids);
    assert SameCopies(next, after, ids[0]);
    forall k | k !in ids ensures SameCopies(b, after, k) {
      assert SameCopies(b, next, k) && SameCopies(next, after, k);
    }
  }

  /** A sweep goes through exactly when the Book gives no permanent refusal without a reason; then all
      that is left pending is what met other trouble. Otherwise it ends at that receipt. */
  lemma {:induction false} SweepCompletesExactly(digest: Digest, b: Box, ids: seq<string>, book: Book, now: string)
    requires Sound(digest, b) && AllPending(b, ids) && Distinct(ids)
    ensures
      var sweep := SweepRun(CourierOf(digest, book, now), b, ids);
      var after := Final(b, sweep.states);
      && (sweep.result.Ok? <==> NoBareRefusal(ids, book))
      && Sound(digest, after) && OthersSame(b, after, ids)
      && (sweep.result.Ok? ==> OnlyTroubleLeft(after, ids, book))
    decreases |ids|
  {
    if ids != [] {
      var run := DeliverRun(digest, b, ids[0], book(ids[0]), now);
      var next := Final(b, run.states);
      HeadAndTail(ids);
      FirstDelivery(digest, b, ids, book, now);
      if run.result.Ok? {
        SweepCompletesExactly(digest, next, ids[1..], book, now);
        var rest := SweepRun(CourierOf(digest, book, now), next, ids[1..]);
        FinalOfBoth(b, run.states, rest.states);
        SweepStep(b, next, Final(next, rest.states), ids, book);
      }
    }
  }

  lemma {:induction false} SweepAfterFirst(deliver: Courier, b: Box, ids: seq<string>)
    requires ids != []
    ensures
      var run := deliver(b, ids[0]);
      var next := Final(b, run.states);
      Final(b, SweepRun(deliver, b, ids).states)
      == if run.result.Ok? then Final(next, SweepRun(deliver, next, ids[1..]).states) else next
  {
    var run := deliver(b, ids[0]);
    FinalOfBoth(b, run.states, SweepRun(deliver, Final(b, run.states), ids[1..]).states);
  }

  /** The receipt is pending before and after, with the same copy. */
  predicate Waits(b: Box, after: Box, id: string) {
    id in b.pending && id in after.pending && after.pending[id] == b.pending[id]
  }

  lemma {:induction false} WaitsThrough(deliver: Courier, b: Box, ids: seq<string>, id: string)
    requires ids != []
    requires
      var run := deliver(b, ids[0]);
      var next := Final(b, run.states);
      && Waits(b, next, id)
      && (run.result.Ok? ==> Waits(next, Final(next, SweepRun(deliver, next, ids[1..]).states), id))
    ensures Waits(b, Final(b, SweepRun(deliver, b, ids).states), id)
  {
    SweepAfterFirst(deliver, b, ids);
  }

  /** What a sweep needs of each delivery: it raises exactly when refused, leaves the later receipts as they
      were and keeps what the next delivery needs. */
  ghost predicate GoesOn(deliver: Courier, ready: (Box, seq<string>) -> bool, refused: string -> bool, b: Box, ids: seq<string>) {
    ids != [] ==>
      var run := deliver(b, ids[0]);
      var next := Final(b, run.states);
      && (run.result.Ok? <==> !refused(ids[0])) && ready(next, ids[1..])
      && forall j :: 0 < j < |ids| ==> Waits(b, next, ids[j])
  }

  lemma {:induction false} RefusalStarves(deliver: Courier, ready: (Box, seq<string>) -> bool, refused: string -> bool,
                                          b: Box, ids: seq<string>, i: nat, j: nat)
    requires forall x, rest {:trigger GoesOn(deliver, ready, refused, x, rest)} :: ready(x, rest) ==> GoesOn(deliver, ready, refused, x, rest)
    requires ready(b, ids) && i < j < |ids| && refused(ids[i])
    ensures Waits(b, Final(b, SweepRun(deliver, b, ids).states), ids[j])
    decreases |ids|
  {
    assert GoesOn(deliver, ready, refused, b, ids);
    var run := deliver(b, ids[0]);
    if run.result.Ok? {
      var rest := ids[1..];
      assert rest[i - 1] == ids[i] && rest[j - 1] == ids[j];
      RefusalStarves(deliver, ready, refused, Final(b, run.states), rest, i - 1, j - 1);
    }
    WaitsThrough(deliver, b, ids, ids[j]);
  }

  lemma DeliveryGoesOn(digest: Digest, b: Box, ids: seq<string>, book: Book, now: string)
    requires Sound(digest, b) && AllPending(b, ids) && Distinct(ids) && ids != []
    ensures
      var run := CourierOf(digest, book, now)(b, ids[0]);
      var next := Final(b, run.states);
      && (run.result.Ok? <==> book(ids[0]) != Permanent(""))
      && Sound(digest, next) && AllPending(next, ids[1..]) && Distinct(ids[1..])
      && forall j :: 0 < j < |ids| ==> Waits(b, next, ids[j])
  {
    FirstDelivery(digest, b, ids, book, now);
    HeadAndTail(ids);
    var next := Final(b, DeliverRun(digest, b, ids[0], book(ids[0]), now).states);
    forall j | 0 < j < |ids| ensures Waits(b, next, ids[j]) {
      assert ids[j] != ids[0] && SameCopies(b, next, ids[j]);
    }
  }

  /** A permanent refusal without a reason keeps every later receipt waiting: their copies stay as they were. */
  lemma {:induction false} BareRefusalStarves(digest: Digest, b: Box, ids: seq<string>, book: Book, now: string, i: nat, j: nat)
    requires Sound(digest, b) && AllPending(b, ids) && Distinct(ids)
    requires i < j < |ids| && book(ids[i]) == Permanent("")
    ensures Waits(b, Final(b, SweepRun(CourierOf(digest, book, now), b, ids).states), ids[j])
  {
    var deliver, refused := CourierOf(digest, book, now), (id: string) => book(id) == Permanent("");
    var ready := (x: Box, rest: seq<string>) => Sound(digest, x) && AllPending(x, rest) && Distinct(rest);
    forall x, rest | ready(x, rest) ensures GoesOn(deliver, ready, refused, x, rest) {
      if rest != [] {
        DeliveryGoesOn(digest, x, rest, book, now);
      }
    }
    RefusalStarves(deliver, ready, refused, b, ids, i, j);
  }

  // ------------------------------------------------------------------ the outbox on its files

  /** Each step spends one unit of the budget; with none left the process stops. `enqueued` and
      `rulings` record what has happened. */
  class OutboxStore {
    var pending: map<string, Record>
    var acknowledged: map<string, Record>
    var quarantined: map<string, Record>
    var enqueued: map<string, Evidence>
    var rulings: seq<Ruling>
    var budget: nat

    function Current(): Box reads this { Box(pending, acknowledged, quarantined, enqueued, rulings) }

    constructor (b: Box, budget: nat)
      ensures Current() == b && this.budget == budget
    {
      pending, acknowledged, quarantined := b.pending, b.acknowledged, b.quarantined;
      enqueued, rulings := b.enqueued, b.rulings;
      this.budget := budget;
    }

    /** The state after as much of the run as the budget allowed. */
    ghost predicate Reached(start: Box, was: nat, run: Run, stopped: bool, result: Result<Record, Fault>)
      reads this
    {
      && Current() == StoppedAfter(start, run, was)
      && budget == was - Min(was, |run.states|)
      && (stopped <==> was < |run.states|)
      && (!stopped ==> result == run.result)
    }

    method Enqueue(digest: Digest, e: Envelope, payload: string, now: string)
      returns (result: Result<Record, Fault>, stopped: bool)
      modifies this
      ensures Reached(old(Current()), old(budget), EnqueueRun(digest, old(Current()), e, payload, now), stopped, result)
    {
      stopped := false;
      var fault := EnqueueFault(digest, e, payload);
      if fault.Some? { return Err(fault.value), false; }
      var existing := Find(Current(), e.receiptId);
      if existing.Some? {
        if existing.value.envelopeDigest != digest(EnvelopeBytes(e)) || existing.value.payloadDigest != digest(PayloadBytes(payload)) {
          return Err(OutboxConflict), false;
        }
        return Ok(existing.value), false;
      }
      var r := NewRecord(digest, e, payload, now);
      result := Ok(r);
      if budget == 0 { stopped := true; return; }
      pending, enqueued, budget := pending[e.receiptId := r], enqueued[e.receiptId := Evidence(e, payload)], budget - 1;
    }

    /** The quarantined copy first, then the pending file goes; `ruled` are the rulings once it is written. */
    method MoveToQuarantine(id: string, reason: string, ruled: seq<Ruling>)
      returns (result: Result<Record, Fault>, stopped: bool)
      modifies this
      ensures Reached(old(Current()), old(budget), QuarantineRun(old(Current()), id, reason, ruled), stopped, result)
    {
      stopped := false;
      if reason == "" { return Err(ReasonRequired), false; }
      if id !in pending {
        var existing := Find(Current(), id);
        return (if existing.None? then Err(UnknownReceipt) else Ok(existing.value)), false;
      }
      var r := Quarantined(pending[id], reason);
      result := Ok(r);
      if budget == 0 { stopped := true; return; }
      quarantined, rulings, budget := quarantined[id := r], ruled, budget - 1;
      if budget == 0 { stopped := true; return; }
      pending, budget := pending - {id}, budget - 1;
    }

    method Quarantine(id: string, reason: string) returns (result: Result<Record, Fault>, stopped: bool)
      modifies this
      ensures Reached(old(Current()), old(budget), OperatorRun(old(Current()), id, reason), stopped, result)
    {
      result, stopped := MoveToQuarantine(id, reason, rulings + [Ruling(id, ByOperator(reason))]);
    }

    /** What follows the Book's answer. */
    method Settle(id: string, response: Response, now: string) returns (result: Result<Record, Fault>, stopped: bool)
      requires id in pending
      modifies this
      ensures Reached(old(Current()), old(budget), SettleRun(old(Current()), id, response, now), stopped, result)
    {
      stopped := false;
      match response {
        case Permanent(reason) => result, stopped := MoveToQuarantine(id, reason, rulings);
        case Trouble(error) =>
          var r := pending[id].(lastError := Some(error));
          result := Ok(r);
          if budget == 0 { stopped := true; return; }
          pending, budget := pending[id := r], budget - 1;
        case Answered(a) =>
          if !a.accepted || a.receiptId != id {
            result, stopped := MoveToQuarantine(id, "Book returned an invalid acceptance receipt", rulings);
          } else {
            var r := Acknowledged(pending[id], a, now);
            result := Ok(r);
            if budget == 0 { stopped := true; return; }
            acknowledged, budget := acknowledged[id := r], budget - 1;
            if budget == 0 { stopped := true; return; }
            pending, budget := pending - {id}, budget - 1;
          }
      }
    }

    /** The attempt is written, the Book is asked, its answer is settled. */
    method Attempt(digest: Digest, id: string, book: Book, now: string) returns (result: Result<Record, Fault>, stopped: bool)
      requires id in pending && DigestsMatch(digest, pending[id])
      modifies this
      ensures Reached(old(Current()), old(budget), DeliverRun(digest, old(Current()), id, book(id), now), stopped, result)
    {
      ghost var start, was := Current(), budget;
      var r := pending[id];
      ghost var attempted, answered := AttemptStates(digest, start, id, book(id), now);
      result, stopped := Ok(r), false;
      if budget == 0 { stopped := true; return; }
      pending, budget := pending[id := Attempted(r, now)], budget - 1;
      if budget == 0 {
        FirstTwo(start, attempted, answered, SettleRun(answered, id, book(id), now), was);
        stopped := true;
        return;
      }
      var response := book(id);
      rulings, budget := rulings + [Ruling(id, ByBook(EvidenceOf(r), response))], budget - 1;
      assert Current() == answered;
      result, stopped := Settle(id, response, now);
      StagedStop(start, [attempted, answered], SettleRun(answered, id, response, now), was);
    }

    method DeliverOne(digest: Digest, id: string, book: Book, now: string)
      returns (result: Result<Record, Fault>, stopped: bool)
      modifies this
      ensures Reached(old(Current()), old(budget), DeliverRun(digest, old(Current()), id, book(id), now), stopped, result)
    {
      if id !in pending {
        var existing := Find(Current(), id);
        return (if existing.None? then Err(UnknownReceipt) else Ok(existing.value)), false;
      }
      var r := pending[id];
      if digest(PayloadBytes(r.payload)) != r.payloadDigest {
        result, stopped := MoveToQuarantine(id, "stored payload digest mismatch", rulings);
        return;
      }
      if digest(EnvelopeBytes(r.envelope)) != r.envelopeDigest {
        result, stopped := MoveToQuarantine(id, "stored envelope digest mismatch", rulings);
        return;
      }
      result, stopped := Attempt(digest, id, book, now);
    }

    /** The receipts waiting, in order of their ids. */
    method PendingReceiptIds() returns (ids: seq<string>)
      ensures Ordered(ids, TextLe) && Distinct(ids)
      ensures forall id :: id in ids <==> id in pending
    {
      var listed: seq<string>, rest := [], pending.Keys;
      while rest != {}
        invariant Distinct(listed)
        invariant forall id :: id in listed <==> id in pending && id !in rest
        invariant rest <= pending.Keys
        decreases |rest|
      {
        var id :| id in rest;
        listed, rest := listed + [id], rest - {id};
      }
      ids := Sorted(listed, TextLe);
      TextLeIsTotalPreorder();
      SortedOrdered(listed, TextLe);
      SortedMembers(listed, TextLe);
      SortedPermutes(listed, TextLe);
      DistinctByMultiset(listed, ids);
    }

    /** How far a sweep has come: what is written, and what is still to do. */
    ghost predicate Swept(start: Box, was: nat, whole: Sweep, done: seq<Box>, deliver: Courier, ids: seq<string>)
      reads this
    {
      && Current() == Final(start, done) && budget + |done| == was
      && SplitAt(whole, done, SweepRun(deliver, Final(start, done), ids))
    }

    ghost predicate SweepEnded(start: Box, was: nat, whole: Sweep, fault: Option<Fault>, stopped: bool)
      reads this
    {
      && (stopped <==> was < |whole.states|)
      && Current() == Final(start, whole.states[..Min(was, |whole.states|)])
      && (!stopped ==> fault == (if whole.result.Ok? then None else Some(whole.result.error)))
    }

    /** One delivery of a sweep. */
    method DeliverRound(digest: Digest, book: Book, now: string, ids: seq<string>,
                        ghost start: Box, ghost was: nat, ghost whole: Sweep, ghost done: seq<Box>)
      returns (fault: Option<Fault>, stopped: bool, ghost more: seq<Box>)
      requires ids != [] && Swept(start, was, whole, done, CourierOf(digest, book, now), ids)
      modifies this
      ensures fault.None? && !stopped ==> Swept(start, was, whole, more, CourierOf(digest, book, now), ids[1..])
      ensures fault.Some? || stopped ==> SweepEnded(start, was, whole, fault, stopped)
    {
      ghost var run := SweepUnfolds(CourierOf(digest, book, now), start, Current(), ids, whole, done, budget);
      var result;
      result, stopped := DeliverOne(digest, ids[0], book, now);
      fault, more := if result.Err? then Some(result.error) else None, done + run.states;
    }

    /** deliver_pending: one delivery after the other, until one raises. */
    method DeliverPending(digest: Digest, book: Book, now: string)
      returns (ids: seq<string>, fault: Option<Fault>, stopped: bool)
      modifies this
      ensures AllPending(old(Current()), ids) && Distinct(ids) && forall id :: id in old(pending) ==> id in ids
      ensures SweepEnded(old(Current()), old(budget), SweepRun(CourierOf(digest, book, now), old(Current()), ids),
                         fault, stopped)
    {
      ids := PendingReceiptIds();
      fault, stopped := None, false;
      ghost var start, was, deliver := Current(), budget, CourierOf(digest, book, now);
      ghost var whole := SweepRun(deliver, start, ids);
      ghost var done: seq<Box> := [];
      var i := 0;
      assert ids[0..] == ids;
      while i < |ids|
        invariant 0 <= i <= |ids|
        invariant !stopped && fault.None? && Swept(start, was, whole, done, deliver, ids[i..])
      {
        assert ids[i..][1..] == ids[i + 1..];
        fault, stopped, done := DeliverRound(digest, book, now, ids[i..], start, was, whole, done);
        if stopped || fault.Some? { return; }
        i := i + 1;
      }
      assert ids[i..] == [] && whole.states == done;
      assert whole.states[..|whole.states|] == whole.states;
    }
  }

  /** What has been written, then what the rest of the sweep will write. */
  ghost predicate SplitAt(whole: Sweep, done: seq<Box>, rest: Sweep) {
    && whole.states == done + rest.states
    && (whole.result.Err? <==> rest.result.Err?)
    && (whole.result.Err? ==> whole.result.error == rest.result.error)
  }

  /** One round: where the delivery leaves the sweep, whether it is stopped, raises or goes on. */
  lemma SweepUnfolds(deliver: Courier, start: Box, b: Box, ids: seq<string>, whole: Sweep, done: seq<Box>, budget: nat)
    returns (run: Run)
    requires ids != [] && b == Final(start, done) && SplitAt(whole, done, SweepRun(deliver, b, ids))
    ensures run == deliver(b, ids[0]) && |done| + |run.states| <= |whole.states|
    ensures budget < |run.states| ==> StoppedAfter(b, run, budget) == Final(start, whole.states[..|done| + budget])
    ensures budget >= |run.states| ==> StoppedAfter(b, run, budget) == Final(start, done + run.states)
    ensures run.result.Err? ==> whole.states == done + run.states && whole.result == Err(run.result.error)
    ensures run.result.Err? ==> whole.states[..|whole.states|] == whole.states
    ensures run.result.Ok? ==> SplitAt(whole, done + run.states, SweepRun(deliver, Final(start, done + run.states), ids[1..]))
  {
    run := deliver(b, ids[0]);
    if run.result.Ok? {
      var rest := SweepRun(deliver, Final(b, run.states), ids[1..]);
      assert done + (run.states + rest.states) == done + run.states + rest.states;
    }
    SliceOf(start, whole.states, done, run.states, budget);
  }

  lemma SliceOf(start: Box, whole: seq<Box>, done: seq<Box>, states: seq<Box>, budget: nat)
    requires done + states <= whole
    ensures Final(start, done + states) == Final(Final(start, done), states)
    ensures states[..|states|] == states && whole[..|done + states|] == done + states
    ensures budget < |states| ==>
      Final(start, whole[..|done| + budget]) == Final(Final(start, done), states[..budget])
  {
    if budget < |states| {
      assert whole[..|done| + budget] == done + states[..budget];
    }
  }

  predicate DigestsMatch(digest: Digest, r: Record) {
    digest(PayloadBytes(r.payload)) == r.payloadDigest && digest(EnvelopeBytes(r.envelope)) == r.envelopeDigest
  }

  /** The first two states of a delivery, and how its run goes on from there. */
  lemma AttemptStates(digest: Digest, b: Box, id: string, response: Response, now: string) returns (attempted: Box, answered: Box)
    requires id in b.pending && DigestsMatch(digest, b.pending[id])
    ensures attempted == b.(pending := b.pending[id := Attempted(b.pending[id], now)])
    ensures answered == attempted.(rulings := b.rulings + [Ruling(id, ByBook(EvidenceOf(b.pending[id]), response))])
    ensures
      var rest := SettleRun(answered, id, response, now);
      DeliverRun(digest, b, id, response, now) == Run([attempted, answered] + rest.states, rest.result)
  {
    attempted := b.(pending := b.pending[id := Attempted(b.pending[id], now)]);
    answered := attempted.(rulings := b.rulings + [Ruling(id, ByBook(EvidenceOf(b.pending[id]), response))]);
  }

  lemma FirstTwo(b: Box, attempted: Box, answered: Box, rest: Run, budget: nat)
    requires budget == 1
    ensures StoppedAfter(b, Run([attempted, answered] + rest.states, rest.result), budget) == attempted
  {
    var states := [attempted, answered] + rest.states;
    assert states[..1] == [attempted];
  }

  lemma StagedStop(b: Box, first: seq<Box>, rest: Run, budget: nat)
    requires |first| <= budget && first != []
    ensures
      StoppedAfter(b, Run(first + rest.states, rest.result), budget)
      == StoppedAfter(first[|first| - 1], rest, budget - |first|)
  {
    var k := Min(budget - |first|, |rest.states|);
    assert (first + rest.states)[..|first| + k] == first + rest.states[..k];
  }
}

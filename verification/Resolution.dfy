/** Point-in-time outcome resolution: the fixed selection policy shared by the resolvers, and
    evaluation/resolver.py. */
module Resolution {
  import opened Prelude
  import opened Sorting
  import opened Evidence

  // ------------------------------------------------------------------ the selection policy

  /** The order a resolver prefers evidence in: first known, then earliest cutoff, then identity. */
  predicate FrameBefore(a: Frame, aHash: string, b: Frame, bHash: string) {
    if a.knownAt != b.knownAt then a.knownAt < b.knownAt
    else if a.cutoffAt != b.cutoffAt then a.cutoffAt < b.cutoffAt
    else if a.frameId != b.frameId then TextLe(a.frameId, b.frameId)
    else TextLe(aHash, bHash)
  }

  function FrameOrder(hash: Hash): (Frame, Frame) -> bool {
    (a, b) => FrameBefore(a, hash(FrameBody(a)), b, hash(FrameBody(b)))
  }

  /** What a slot accepts: qualified states of the instrument, known inside the slot, not used before. */
  datatype Slot = Slot(instrument: Instrument, low: int, high: int, used: set<string>)

  predicate Eligible(f: Frame, slot: Slot) {
    && f.frameId !in slot.used && f.instrument == slot.instrument
    && f.representationType == "INSTRUMENT_STATE" && f.status.QUALIFIED?
    && slot.low <= f.knownAt <= slot.high
  }

  function EligibleFrames(frames: seq<Frame>, slot: Slot): (e: seq<Frame>)
    ensures forall f :: f in e <==> f in frames && Eligible(f, slot)
  {
    if frames == [] then []
    else
      var n := |frames| - 1;
      assert forall f :: f in frames <==> f in frames[..n] || f == frames[n];
      EligibleFrames(frames[..n], slot) + (if Eligible(frames[n], slot) then [frames[n]] else [])
  }

  /** The first eligible frame in the preferred order. */
  function Earliest(hash: Hash, frames: seq<Frame>, slot: Slot): (f: Option<Frame>)
    ensures f.Some? ==> f.value in frames && Eligible(f.value, slot)
  {
    var eligible := EligibleFrames(frames, slot);
    if eligible == [] then None
    else
      SortedMembers(eligible, FrameOrder(hash));
      SortedPermutes(eligible, FrameOrder(hash));
      var sorted := Sorted(eligible, FrameOrder(hash));
      assert sorted[0] in sorted;
      Some(sorted[0])
  }

  /** select_resolution_frame and its siblings: collect, sort, take the first. */
  method SelectEarliest(hash: Hash, frames: seq<Frame>, slot: Slot) returns (selected: Option<Frame>)
    ensures selected == Earliest(hash, frames, slot)
  {
    var eligible: seq<Frame> := [];
    var i := 0;
    while i < |frames|
      invariant 0 <= i <= |frames| && eligible == EligibleFrames(frames[..i], slot)
    {
      assert frames[..i + 1][..i] == frames[..i];
      var f := frames[i];
      if f.frameId !in slot.used && f.instrument == slot.instrument && f.representationType == "INSTRUMENT_STATE"
         && f.status.QUALIFIED? && slot.low <= f.knownAt <= slot.high {
        eligible := eligible + [f];
      }
      i := i + 1;
    }
    assert frames[..i] == frames;
    if eligible == [] { return None; }
    SortedPermutes(eligible, FrameOrder(hash));
    return Some(Sorted(eligible, FrameOrder(hash))[0]);
  }

  lemma FrameOrderIsTotalPreorder(hash: Hash)
    ensures TotalPreorder(FrameOrder(hash))
  {
    var le := FrameOrder(hash);
    forall x, y ensures le(x, y) || le(y, x) {
      TextLeTotal(x.frameId, y.frameId);
      TextLeTotal(hash(FrameBody(x)), hash(FrameBody(y)));
    }
    forall x, y, z | le(x, y) && le(y, z) ensures le(x, z) {
      FrameBeforeTransitive(x, hash(FrameBody(x)), y, hash(FrameBody(y)), z, hash(FrameBody(z)));
    }
  }

  lemma FrameBeforeTransitive(x: Frame, xh: string, y: Frame, yh: string, z: Frame, zh: string)
    requires FrameBefore(x, xh, y, yh) && FrameBefore(y, yh, z, zh)
    ensures FrameBefore(x, xh, z, zh)
  {
    if x.knownAt == y.knownAt == z.knownAt && x.cutoffAt == y.cutoffAt == z.cutoffAt {
      if x.frameId == y.frameId == z.frameId {
        TextLeTransitive(xh, yh, zh);
      } else if x.frameId != y.frameId && y.frameId != z.frameId {
        TextLeTransitive(x.frameId, y.frameId, z.frameId);
        if x.frameId == z.frameId {
          TextLeAntisymmetric(x.frameId, y.frameId);
        }
      }
    }
  }

  lemma FrameOrderIsStrict(hash: Hash, frames: seq<Frame>, a: Frame, b: Frame)
    requires Apart(hash, FrameBodies(frames)) && a in frames && b in frames
    requires FrameOrder(hash)(a, b) && FrameOrder(hash)(b, a)
    ensures a == b
  {
    if a.frameId != b.frameId {
      TextLeAntisymmetric(a.frameId, b.frameId);
    } else {
      TextLeAntisymmetric(hash(FrameBody(a)), hash(FrameBody(b)));
      assert FrameBody(a) == FrameBody(b);
    }
  }

  /** Nothing is selected exactly when nothing is eligible; what is selected precedes every eligible frame. */
  lemma EarliestIsLeast(hash: Hash, frames: seq<Frame>, slot: Slot)
    ensures Earliest(hash, frames, slot).None? <==> forall f :: f in frames ==> !Eligible(f, slot)
    ensures Earliest(hash, frames, slot).Some? ==>
      forall g :: g in frames && Eligible(g, slot) ==> FrameOrder(hash)(Earliest(hash, frames, slot).value, g)
  {
    var eligible := EligibleFrames(frames, slot);
    FrameOrderIsTotalPreorder(hash);
    if eligible == [] {
      forall f | f in frames ensures !Eligible(f, slot) {
        assert f in eligible <==> Eligible(f, slot);
      }
    } else {
      SortedHeadIsLeast(eligible, FrameOrder(hash));
      assert eligible[0] in eligible;
    }
  }

  ghost predicate SameMembers(a: seq<Frame>, b: seq<Frame>) {
    forall f :: f in a <==> f in b
  }

  /** Only which frames are supplied matters, not their order or repetition. */
  lemma OrderIsIrrelevant(hash: Hash, frames: seq<Frame>, others: seq<Frame>, slot: Slot)
    requires Apart(hash, FrameBodies(frames)) && SameMembers(frames, others)
    ensures Earliest(hash, others, slot) == Earliest(hash, frames, slot)
  {
    EarliestIsLeast(hash, frames, slot);
    EarliestIsLeast(hash, others, slot);
    var a, b := Earliest(hash, frames, slot), Earliest(hash, others, slot);
    if a.Some? && b.Some? {
      FrameOrderIsStrict(hash, frames, a.value, b.value);
    }
  }

  /** The frames supplied later: all of the earlier ones, and others known only after a time. */
  ghost predicate GrownAfter(frames: seq<Frame>, later: seq<Frame>, now: int) {
    && (forall f :: f in frames ==> f in later)
    && (forall f :: f in later ==> f in frames || f.knownAt > now)
  }

  /** A selection known by a time stands whatever becomes known later; an empty slot that has closed by
      that time stays empty. */
  lemma SelectionIsStable(hash: Hash, frames: seq<Frame>, later: seq<Frame>, slot: Slot, now: int)
    requires Apart(hash, FrameBodies(frames)) && GrownAfter(frames, later, now)
    requires
      var selected := Earliest(hash, frames, slot);
      if selected.Some? then selected.value.knownAt <= now else slot.high <= now
    ensures Earliest(hash, later, slot) == Earliest(hash, frames, slot)
  {
    EarliestIsLeast(hash, frames, slot);
    EarliestIsLeast(hash, later, slot);
    var a, b := Earliest(hash, frames, slot), Earliest(hash, later, slot);
    if a.Some? {
      assert FrameOrder(hash)(b.value, a.value);
      assert b.value in frames;
      FrameOrderIsStrict(hash, frames, a.value, b.value);
    }
  }

  // ------------------------------------------------------------------ evaluation/resolver.py

  const MAX_RESOLUTION_LAG := 5000000000

  datatype Measured = Measured(
    frameId: string, frameHash: string, knownAt: int, realized: Price,
    realizedReturn: real, forecastError: real, actualPositive: bool)

  datatype PredictionOutcome = PredictionOutcome(
    predictionId: string, predictionHash: string, entryHash: string, resolvesAt: int, decidedAt: int,
    reference: Price, measured: Option<Measured>)

  datatype Undecided = NegativeNow | LateJournaled | NotKnowableYet | WindowOpen | NoTargetPrice

  function SlotOf(p: Prediction): Slot {
    Slot(p.instrument, p.resolvesAt, p.resolvesAt + MAX_RESOLUTION_LAG, {})
  }

  function ReturnBps(realized: real, reference: real): real
    requires reference != 0.0
  {
    (realized / reference - 1.0) * 10000.0
  }

  function MeasuredBy(hash: Hash, p: Prediction, f: Frame, price: Price): Measured
    requires p.referencePrice.value != 0.0
  {
    var r := ReturnBps(price.value, p.referencePrice.value);
    Measured(f.frameId, hash(FrameBody(f)), f.knownAt, price, r, r - p.expectedMove, r > 0.0)
  }

  /** resolve_prediction, from the journaled prediction on. */
  function Resolve(hash: Hash, p: Prediction, entryHash: string, journaledAt: int, frames: seq<Frame>, now: int)
    : Result<PredictionOutcome, Undecided>
    requires ValidPrediction(p)
  {
    if now < 0 then Err(NegativeNow)
    else if p.mode.PROSPECTIVE_SHADOW? && journaledAt >= p.resolvesAt then Err(LateJournaled)
    else
      var outcome := PredictionOutcome(p.predictionId, hash(PredictionBody(p)), entryHash, p.resolvesAt,
                                       p.resolvesAt + MAX_RESOLUTION_LAG + 1, p.referencePrice, None);
      match Earliest(hash, frames, SlotOf(p))
      case None => if now <= p.resolvesAt + MAX_RESOLUTION_LAG then Err(WindowOpen) else Ok(outcome)
      case Some(f) =>
        if now < f.knownAt then Err(NotKnowableYet)
        else match TargetPrice(f)
          case None => Err(NoTargetPrice)
          case Some(price) => Ok(outcome.(decidedAt := f.knownAt, measured := Some(MeasuredBy(hash, p, f, price))))
  }

  /** Once an outcome is final, later evidence and later retries give the identical outcome, resolved or
      unresolvable, in whatever order the frames come. */
  lemma OutcomeIsStable(hash: Hash, p: Prediction, entryHash: string, journaledAt: int,
                        frames: seq<Frame>, now: int, later: seq<Frame>, laterNow: int)
    requires Apart(hash, FrameBodies(frames)) && ValidPrediction(p)
    requires GrownAfter(frames, later, now) && now <= laterNow
    requires Resolve(hash, p, entryHash, journaledAt, frames, now).Ok?
    ensures Resolve(hash, p, entryHash, journaledAt, later, laterNow) == Resolve(hash, p, entryHash, journaledAt, frames, now)
  {
    SelectionIsStable(hash, frames, later, SlotOf(p), now);
  }

  lemma ReturnSign(realized: real, reference: real)
    requires reference > 0.0
    ensures ReturnBps(realized, reference) > 0.0 <==> realized > reference
  {
    var q := realized / reference;
    assert q * reference == realized;
    if q > 1.0 {
      assert (q - 1.0) * reference > 0.0;
    } else {
      assert (1.0 - q) * reference >= 0.0;
    }
  }

  /** A final outcome was knowable when it was made, is decided inside the window or just past it, and
      measures the earliest qualified frame of the window. */
  lemma OutcomeIsCausal(hash: Hash, p: Prediction, entryHash: string, journaledAt: int, frames: seq<Frame>, now: int)
    requires ValidPrediction(p) && Resolve(hash, p, entryHash, journaledAt, frames, now).Ok?
    ensures
      var o := Resolve(hash, p, entryHash, journaledAt, frames, now).value;
      && p.resolvesAt <= o.decidedAt <= now
      && (o.measured.Some? <==> exists f :: f in frames && Eligible(f, SlotOf(p)))
      && (o.measured.Some? ==>
            o.decidedAt == o.measured.value.knownAt <= p.resolvesAt + MAX_RESOLUTION_LAG
            && (forall f :: f in frames && Eligible(f, SlotOf(p)) ==> o.decidedAt <= f.knownAt)
            && (o.measured.value.actualPositive <==> o.measured.value.realized.value > p.referencePrice.value))
      && (o.measured.None? ==> o.decidedAt == p.resolvesAt + MAX_RESOLUTION_LAG + 1)
  {
    EarliestIsLeast(hash, frames, SlotOf(p));
    var selected := Earliest(hash, frames, SlotOf(p));
    if selected.Some? {
      ReturnSign(TargetPrice(selected.value).value.value, p.referencePrice.value);
      forall f | f in frames && Eligible(f, SlotOf(p)) ensures selected.value.knownAt <= f.knownAt {
        var g := selected.value;
        assert FrameOrder(hash)(g, f);
        assert FrameBefore(g, hash(FrameBody(g)), f, hash(FrameBody(f)));
      }
    }
  }
}

/** The fixed-grid resolver of evaluation/question_path_resolvers.py: one frame for every slot of a
    five-second grid. */
module GridResolution {
  import opened Prelude
  import opened Sorting
  import opened Evidence
  import opened Competence
  import opened Resolution
  import opened QuestionResolution

  const GRID := 5000000000

  // ------------------------------------------------------------------ the grid

  function Slots(p: QuestionPrediction): nat
    requires ValidQuestion(p)
  {
    p.horizon / GRID
  }

  function Target(p: QuestionPrediction, i: nat): int { p.cutoffAt + (i + 1) * GRID }

  /** _resolution_grid: the targets after the cutoff, the last at the horizon. */
  method ResolutionGrid(p: QuestionPrediction) returns (grid: Result<seq<int>, Refusal>)
    requires ValidQuestion(p)
    ensures grid.Ok? <==> p.horizon % GRID == 0
    ensures grid.Ok? ==> |grid.value| == Slots(p) && forall i :: 0 <= i < Slots(p) ==> grid.value[i] == Target(p, i)
  {
    if p.horizon % GRID != 0 { return Err(GridDoesNotDivide); }
    var targets: seq<int>, offset := [], GRID;
    while offset <= p.horizon
      invariant offset == (|targets| + 1) * GRID && offset <= p.horizon + GRID
      invariant forall i :: 0 <= i < |targets| ==> targets[i] == Target(p, i)
      decreases p.horizon - offset
    {
      targets := targets + [p.cutoffAt + offset];
      offset := offset + GRID;
    }
    return Ok(targets);
  }

  function SlotUpper(p: QuestionPrediction, i: nat): int
    requires ValidQuestion(p)
  {
    var policy := Target(p, i) + p.maxLag;
    if i == Slots(p) - 1 then policy else Min(policy, Target(p, i + 1) - 1)
  }

  function SlotAt(p: QuestionPrediction, instrument: Instrument, i: nat, used: set<string>): Slot
    requires ValidQuestion(p)
  {
    Slot(instrument, Target(p, i), SlotUpper(p, i), used)
  }

  function SlotsOf(p: QuestionPrediction, instrument: Instrument): seq<Slot>
    requires ValidQuestion(p)
  {
    seq(Slots(p), i requires 0 <= i < Slots(p) => SlotAt(p, instrument, i, {}))
  }

  /** Each slot ends before the next begins. */
  ghost predicate Disjoint(slots: seq<Slot>) {
    forall i, j :: 0 <= i < j < |slots| ==> slots[i].high < slots[j].low
  }

  ghost predicate Within(slots: seq<Slot>, after: int, until: int) {
    forall i :: 0 <= i < |slots| ==> after < slots[i].low && slots[i].high <= until
  }

  lemma TargetsRise(p: QuestionPrediction, i: nat, j: nat)
    requires ValidQuestion(p) && i < j < Slots(p)
    ensures SlotUpper(p, i) < Target(p, j)
  {
  }

  lemma LastTarget(p: QuestionPrediction, i: nat)
    requires ValidQuestion(p) && i < Slots(p)
    ensures p.cutoffAt < Target(p, i) <= p.resolvesAt && SlotUpper(p, i) <= p.resolvesAt + p.maxLag
  {
  }

  /** Slots do not meet, all lie after the cutoff, and none reaches past the window. */
  lemma SlotsAreDisjoint(p: QuestionPrediction, instrument: Instrument)
    requires ValidQuestion(p)
    ensures Disjoint(SlotsOf(p, instrument)) && Within(SlotsOf(p, instrument), p.cutoffAt, p.resolvesAt + p.maxLag)
    ensures p.horizon % GRID == 0 ==> SlotsOf(p, instrument) != []
  {
    var slots := SlotsOf(p, instrument);
    forall i, j | 0 <= i < j < |slots| ensures slots[i].high < slots[j].low {
      TargetsRise(p, i, j);
    }
    forall i | 0 <= i < |slots| ensures p.cutoffAt < slots[i].low && slots[i].high <= p.resolvesAt + p.maxLag {
      LastTarget(p, i);
    }
  }

  // ------------------------------------------------------------------ the selection

  function FrameIds(frames: seq<Frame>): set<string> { set f | f in frames :: f.frameId }

  function Fresh(slot: Slot, selected: seq<Frame>): Slot { slot.(used := FrameIds(selected)) }

  /** The winners of the slots, one after the other, if each has one. */
  function Select(hash: Hash, slots: seq<Slot>, frames: seq<Frame>): (s: Option<seq<Frame>>)
    ensures s.Some? ==> |s.value| == |slots|
  {
    if slots == [] then Some([])
    else
      var n := |slots| - 1;
      match Select(hash, slots[..n], frames)
      case None => None
      case Some(selected) =>
        match Earliest(hash, frames, Fresh(slots[n], selected))
        case None => None
        case Some(winner) => Some(selected + [winner])
  }

  lemma IdsOfNext(selected: seq<Frame>, f: Frame)
    ensures FrameIds(selected + [f]) == FrameIds(selected) + {f.frameId}
  {
    forall id ensures id in FrameIds(selected + [f]) <==> id in FrameIds(selected) + {f.frameId} {
      assert f in selected + [f];
      assert forall g :: g in selected ==> g in selected + [f];
    }
  }

  lemma {:induction false} StaysEmpty(hash: Hash, slots: seq<Slot>, frames: seq<Frame>, n: nat)
    requires n <= |slots| && Select(hash, slots[..n], frames).None?
    ensures Select(hash, slots, frames).None?
    decreases |slots|
  {
    if n < |slots| {
      assert slots[..|slots| - 1][..n] == slots[..n];
      StaysEmpty(hash, slots[..|slots| - 1], frames, n);
    } else {
      assert slots[..n] == slots;
    }
  }

  /** _select_grid_frames: slot by slot, giving up at the first without a candidate. */
  method SelectGridFrames(hash: Hash, p: QuestionPrediction, instrument: Instrument, frames: seq<Frame>)
    returns (selected: Option<seq<Frame>>)
    requires ValidQuestion(p) && p.horizon % GRID == 0
    ensures selected == Select(hash, SlotsOf(p, instrument), frames)
  {
    var grid := ResolutionGrid(p);
    ghost var slots := SlotsOf(p, instrument);
    var winners: seq<Frame>, used: set<string>, index := [], {}, 0;
    while index < |grid.value|
      invariant 0 <= index <= |grid.value|
      invariant Select(hash, slots[..index], frames) == Some(winners) && used == FrameIds(winners)
    {
      var winner := SelectInSlot(hash, p, instrument, frames, grid.value, index, used);
      assert slots[..index + 1][..index] == slots[..index];
      if winner.None? {
        StaysEmpty(hash, slots, frames, index + 1);
        return None;
      }
      IdsOfNext(winners, winner.value);
      winners, used, index := winners + [winner.value], used + {winner.value.frameId}, index + 1;
    }
    assert slots[..index] == slots;
    return Some(winners);
  }

  ghost predicate IsGrid(p: QuestionPrediction, grid: seq<int>)
    requires ValidQuestion(p)
  {
    |grid| == Slots(p) && forall i :: 0 <= i < |grid| ==> grid[i] == Target(p, i)
  }

  /** One round of the loop: a slot ends just before the next target. */
  method SelectInSlot(hash: Hash, p: QuestionPrediction, instrument: Instrument, frames: seq<Frame>, grid: seq<int>,
                      index: nat, used: set<string>) returns (winner: Option<Frame>)
    requires ValidQuestion(p) && IsGrid(p, grid) && index < |grid|
    ensures winner == Earliest(hash, frames, SlotsOf(p, instrument)[index].(used := used))
  {
    var target := grid[index];
    var policyUpper := target + p.maxLag;
    var upper := if index == |grid| - 1 then policyUpper else Min(policyUpper, grid[index + 1] - 1);
    winner := SelectEarliest(hash, frames, Slot(instrument, target, upper, used));
  }

  // ------------------------------------------------------------------ what is selected

  ghost predicate InSlots(slots: seq<Slot>, frames: seq<Frame>, selected: seq<Frame>) {
    && |selected| == |slots|
    && forall i :: 0 <= i < |slots| ==> selected[i] in frames && Eligible(selected[i], slots[i].(used := {}))
  }

  lemma {:induction false} SelectedInSlots(hash: Hash, slots: seq<Slot>, frames: seq<Frame>)
    requires Select(hash, slots, frames).Some?
    ensures InSlots(slots, frames, Select(hash, slots, frames).value)
  {
    if slots != [] {
      SelectedInSlots(hash, slots[..|slots| - 1], frames);
    }
  }

  /** Winners are known later and later, each inside its own slot and all inside the window. */
  lemma {:induction false} SelectedInOrder(hash: Hash, p: QuestionPrediction, instrument: Instrument, frames: seq<Frame>)
    requires ValidQuestion(p) && p.horizon % GRID == 0 && Select(hash, SlotsOf(p, instrument), frames).Some?
    ensures
      var selected := Select(hash, SlotsOf(p, instrument), frames).value;
      InSlots(SlotsOf(p, instrument), frames, selected) && ForwardPath(p, selected)
  {
    var slots := SlotsOf(p, instrument);
    SelectedInSlots(hash, slots, frames);
    SlotsAreDisjoint(p, instrument);
    PathOfSlots(slots, frames, Select(hash, slots, frames).value, p);
  }

  lemma PathOfSlots(slots: seq<Slot>, frames: seq<Frame>, selected: seq<Frame>, p: QuestionPrediction)
    requires InSlots(slots, frames, selected) && Disjoint(slots) && slots != []
    requires Within(slots, p.cutoffAt, p.resolvesAt + p.maxLag)
    ensures ForwardPath(p, selected)
  {
  }

  lemma UsedIsIdle(hash: Hash, frames: seq<Frame>, selected: seq<Frame>, slot: Slot)
    requires Apart(hash, FrameBodies(frames)) && IdsDetermine(frames)
    requires forall f :: f in selected ==> f in frames && f.knownAt < slot.low
    ensures Earliest(hash, frames, Fresh(slot, selected)) == Earliest(hash, frames, slot.(used := {}))
  {
    var a, b := Fresh(slot, selected), slot.(used := {});
    forall f | f in frames ensures Eligible(f, a) <==> Eligible(f, b) {
      if Eligible(f, b) {
        forall g | g in selected ensures g.frameId != f.frameId {
          assert g in frames && g != f;
        }
      }
    }
    EarliestIsLeast(hash, frames, a);
    EarliestIsLeast(hash, frames, b);
    if Earliest(hash, frames, a).Some? {
      FrameOrderIsStrict(hash, frames, Earliest(hash, frames, a).value, Earliest(hash, frames, b).value);
    }
  }

  lemma EarlierWinners(hash: Hash, slots: seq<Slot>, frames: seq<Frame>)
    requires slots != [] && Disjoint(slots) && Select(hash, slots[..|slots| - 1], frames).Some?
    ensures
      var n := |slots| - 1;
      forall f :: f in Select(hash, slots[..n], frames).value ==> f in frames && f.knownAt < slots[n].low
  {
    var n := |slots| - 1;
    var selected := Select(hash, slots[..n], frames).value;
    SelectedInSlots(hash, slots[..n], frames);
    forall f | f in selected ensures f in frames && f.knownAt < slots[n].low {
      var i :| 0 <= i < |selected| && selected[i] == f;
      assert slots[..n][i] == slots[i];
    }
  }

  ghost predicate Filled(slot: Slot, frames: seq<Frame>) {
    exists f :: f in frames && Eligible(f, slot.(used := {}))
  }

  ghost predicate EarliestEach(hash: Hash, slots: seq<Slot>, frames: seq<Frame>, selected: seq<Frame>) {
    && |selected| == |slots|
    && forall i :: 0 <= i < |slots| ==> Some(selected[i]) == Earliest(hash, frames, slots[i].(used := {}))
  }

  ghost predicate AllFilled(slots: seq<Slot>, frames: seq<Frame>) {
    forall i :: 0 <= i < |slots| ==> Filled(slots[i], frames)
  }

  lemma {:induction false} LastSlotExactly(hash: Hash, slots: seq<Slot>, frames: seq<Frame>)
    requires slots != [] && Disjoint(slots) && Apart(hash, FrameBodies(frames)) && IdsDetermine(frames)
    requires Select(hash, slots[..|slots| - 1], frames).Some?
    ensures
      var n := |slots| - 1;
      var winner := Earliest(hash, frames, slots[n].(used := {}));
      && (winner.Some? <==> Filled(slots[n], frames))
      && Select(hash, slots, frames)
         == if winner.None? then None else Some(Select(hash, slots[..n], frames).value + [winner.value])
  {
    var n := |slots| - 1;
    EarliestIsLeast(hash, frames, slots[n].(used := {}));
    EarlierWinners(hash, slots, frames);
    UsedIsIdle(hash, frames, Select(hash, slots[..n], frames).value, slots[n]);
  }

  lemma AllFilledSplits(slots: seq<Slot>, frames: seq<Frame>)
    requires slots != []
    ensures AllFilled(slots, frames) <==> AllFilled(slots[..|slots| - 1], frames) && Filled(slots[|slots| - 1], frames)
  {
    var n := |slots| - 1;
    assert forall i :: 0 <= i < n ==> slots[..n][i] == slots[i];
  }

  /** When a frame id names one frame, the used filter never excludes anything: each winner is simply the
      earliest of its slot, and the selection fails exactly when some slot has no eligible frame. */
  lemma {:induction false} SelectionExactly(hash: Hash, slots: seq<Slot>, frames: seq<Frame>)
    requires Disjoint(slots) && Apart(hash, FrameBodies(frames)) && IdsDetermine(frames)
    ensures Select(hash, slots, frames).Some? <==> AllFilled(slots, frames)
    ensures Select(hash, slots, frames).Some? ==> EarliestEach(hash, slots, frames, Select(hash, slots, frames).value)
  {
    if slots != [] {
      var n := |slots| - 1;
      SelectionExactly(hash, slots[..n], frames);
      AllFilledSplits(slots, frames);
      if Select(hash, slots[..n], frames).Some? {
        LastSlotExactly(hash, slots, frames);
      }
    }
  }

  /** The earliest frame of every slot, the used ones included. */
  ghost predicate EachHasEarliest(hash: Hash, slots: seq<Slot>, frames: seq<Frame>) {
    forall i :: 0 <= i < |slots| ==> Earliest(hash, frames, slots[i].(used := {})).Some?
  }

  ghost predicate EarliestDiffer(hash: Hash, slots: seq<Slot>, frames: seq<Frame>)
    requires EachHasEarliest(hash, slots, frames)
  {
    forall i, j :: 0 <= i < j < |slots| ==>
      EarliestAt(hash, slots, frames, i).frameId != EarliestAt(hash, slots, frames, j).frameId
  }

  ghost function EarliestAt(hash: Hash, slots: seq<Slot>, frames: seq<Frame>, i: nat): Frame
    requires EachHasEarliest(hash, slots, frames) && i < |slots|
  {
    Earliest(hash, frames, slots[i].(used := {})).value
  }

  ghost predicate SelectsEarliest(hash: Hash, slots: seq<Slot>, frames: seq<Frame>) {
    Select(hash, slots, frames).Some? && EarliestEach(hash, slots, frames, Select(hash, slots, frames).value)
  }

  /** A winner whose id is not used yet stays the winner under the filter. */
  lemma UnusedWinnerStays(hash: Hash, frames: seq<Frame>, selected: seq<Frame>, slot: Slot)
    requires Apart(hash, FrameBodies(frames)) && Earliest(hash, frames, slot.(used := {})).Some?
    requires Earliest(hash, frames, slot.(used := {})).value.frameId !in FrameIds(selected)
    ensures Earliest(hash, frames, Fresh(slot, selected)) == Earliest(hash, frames, slot.(used := {}))
  {
    var a, b := Fresh(slot, selected), slot.(used := {});
    var winner := Earliest(hash, frames, b).value;
    EarliestIsLeast(hash, frames, a);
    EarliestIsLeast(hash, frames, b);
    assert Eligible(winner, a);
    FrameOrderIsStrict(hash, frames, Earliest(hash, frames, a).value, winner);
  }

  lemma {:induction false} DistinctEarliestAreSelected(hash: Hash, slots: seq<Slot>, frames: seq<Frame>)
    requires Apart(hash, FrameBodies(frames)) && EachHasEarliest(hash, slots, frames) && EarliestDiffer(hash, slots, frames)
    ensures SelectsEarliest(hash, slots, frames)
  {
    if slots != [] {
      var n := |slots| - 1;
      EarliestOfPrefix(hash, slots, frames);
      DistinctEarliestAreSelected(hash, slots[..n], frames);
      var path, winner := Select(hash, slots[..n], frames).value, EarliestAt(hash, slots, frames, n);
      LastIsUnused(hash, slots, frames);
      UnusedWinnerStays(hash, frames, path, slots[n]);
      assert Select(hash, slots, frames) == Some(path + [winner]);
      OneMoreEarliest(hash, slots, frames, path, winner);
    }
  }

  lemma OneMoreEarliest(hash: Hash, slots: seq<Slot>, frames: seq<Frame>, path: seq<Frame>, winner: Frame)
    requires slots != [] && EarliestEach(hash, slots[..|slots| - 1], frames, path)
    requires Earliest(hash, frames, slots[|slots| - 1].(used := {})) == Some(winner)
    ensures EarliestEach(hash, slots, frames, path + [winner])
  {
    var n, before := |slots| - 1, slots[..|slots| - 1];
    forall i | 0 <= i < n + 1 ensures Some((path + [winner])[i]) == Earliest(hash, frames, slots[i].(used := {})) {
      if i < n {
        assert before[i] == slots[i];
      }
    }
  }

  lemma EarliestOfPrefix(hash: Hash, slots: seq<Slot>, frames: seq<Frame>)
    requires slots != [] && EachHasEarliest(hash, slots, frames) && EarliestDiffer(hash, slots, frames)
    ensures EachHasEarliest(hash, slots[..|slots| - 1], frames) && EarliestDiffer(hash, slots[..|slots| - 1], frames)
  {
    var n := |slots| - 1;
    assert forall i :: 0 <= i < n ==> slots[..n][i] == slots[i];
    forall i, j | 0 <= i < j < n
      ensures EarliestAt(hash, slots[..n], frames, i).frameId != EarliestAt(hash, slots[..n], frames, j).frameId
    {
      assert EarliestAt(hash, slots, frames, i).frameId != EarliestAt(hash, slots, frames, j).frameId;
    }
  }

  lemma {:induction false} LastIsUnused(hash: Hash, slots: seq<Slot>, frames: seq<Frame>)
    requires slots != [] && EachHasEarliest(hash, slots, frames) && EarliestDiffer(hash, slots, frames)
    requires SelectsEarliest(hash, slots[..|slots| - 1], frames)
    ensures
      var n := |slots| - 1;
      EarliestAt(hash, slots, frames, n).frameId !in FrameIds(Select(hash, slots[..n], frames).value)
  {
    var n := |slots| - 1;
    var selected := Select(hash, slots[..n], frames).value;
    forall f | f in selected ensures f.frameId != EarliestAt(hash, slots, frames, n).frameId {
      var i :| 0 <= i < n && selected[i] == f;
      assert slots[..n][i] == slots[i] && f == EarliestAt(hash, slots, frames, i);
    }
  }

  /** Whatever ids the frames have: the filter leaves every slot its earliest frame exactly when every slot
      has one and these have pairwise different ids. */
  lemma FilterIsIdleExactly(hash: Hash, slots: seq<Slot>, frames: seq<Frame>)
    requires Apart(hash, FrameBodies(frames))
    ensures SelectsEarliest(hash, slots, frames)
      <==> EachHasEarliest(hash, slots, frames) && EarliestDiffer(hash, slots, frames)
  {
    if SelectsEarliest(hash, slots, frames) {
      var path := Select(hash, slots, frames).value;
      SelectedAreDistinct(hash, slots, frames);
      forall i | 0 <= i < |slots| ensures Earliest(hash, frames, slots[i].(used := {})) == Some(path[i]) {
      }
      forall i, j | 0 <= i < j < |slots|
        ensures EarliestAt(hash, slots, frames, i).frameId != EarliestAt(hash, slots, frames, j).frameId
      {
        assert path[i].frameId != path[j].frameId;
      }
    } else if EachHasEarliest(hash, slots, frames) && EarliestDiffer(hash, slots, frames) {
      DistinctEarliestAreSelected(hash, slots, frames);
    }
  }

  /** Without that, the filter can lose a slot: two frames under one id, one in each of two slots. */
  lemma SharedIdLosesSlot(hash: Hash, first: Slot, second: Slot, a: Frame, b: Frame)
    requires Disjoint([first, second]) && first.used == {} && a.frameId == b.frameId
    requires Eligible(a, first) && Eligible(b, second.(used := {}))
    ensures Filled(first, [a, b]) && Filled(second, [a, b])
    ensures Select(hash, [first, second], [a, b]).None?
  {
    var frames, slots := [a, b], [first, second];
    assert a in frames && b in frames;
    assert slots[..1] == [first] && [first][..0] == [];
    assert FrameIds([]) == {} && Fresh(first, []) == first;
    EarliestIsLeast(hash, frames, first);
    assert Select(hash, [first][..0], frames) == Some([]);
    var winners := Select(hash, [first], frames).value;
    assert winners[0] in winners;
    EarliestIsLeast(hash, frames, Fresh(second, winners));
  }

  // ------------------------------------------------------------------ stability

  ghost predicate SettledBy(slots: seq<Slot>, selected: Option<seq<Frame>>, now: int) {
    if selected.Some? then forall i :: 0 <= i < |selected.value| ==> selected.value[i].knownAt <= now
    else forall i :: 0 <= i < |slots| ==> slots[i].high <= now
  }

  lemma {:induction false} SettledBefore(hash: Hash, slots: seq<Slot>, frames: seq<Frame>, now: int)
    requires slots != [] && SettledBy(slots, Select(hash, slots, frames), now)
    ensures
      var n := |slots| - 1;
      var before := Select(hash, slots[..n], frames);
      && SettledBy(slots[..n], before, now)
      && (before.Some? ==>
            var winner := Earliest(hash, frames, Fresh(slots[n], before.value));
            if winner.Some? then winner.value.knownAt <= now else slots[n].high <= now)
  {
    var n := |slots| - 1;
    var before, selected := Select(hash, slots[..n], frames), Select(hash, slots, frames);
    if selected.Some? {
      assert forall i :: 0 <= i < n ==> selected.value[i] == before.value[i];
      assert selected.value[n].knownAt <= now;
    } else if before.Some? {
      SelectedInSlots(hash, slots[..n], frames);
    }
  }

  /** What is selected by a time stays selected as later evidence comes in, and so does a failure once the
      slots have closed. */
  lemma {:induction false} GridSelectionIsStable(hash: Hash, slots: seq<Slot>, frames: seq<Frame>, later: seq<Frame>, now: int)
    requires Apart(hash, FrameBodies(frames)) && GrownAfter(frames, later, now) && SettledBy(slots, Select(hash, slots, frames), now)
    ensures Select(hash, slots, later) == Select(hash, slots, frames)
  {
    if slots != [] {
      var n := |slots| - 1;
      var before := Select(hash, slots[..n], frames);
      SettledBefore(hash, slots, frames, now);
      GridSelectionIsStable(hash, slots[..n], frames, later, now);
      if before.Some? {
        SelectionIsStable(hash, frames, later, Fresh(slots[n], before.value), now);
      }
    }
  }

  // ------------------------------------------------------------------ the resolver

  function Prices(path: seq<Frame>): (r: Option<seq<real>>)
    ensures r.Some? ==> |r.value| == |path| && forall i :: 0 <= i < |path| ==>
      TargetPrice(path[i]).Some? && r.value[i] == TargetPrice(path[i]).value.value > 0.0
  {
    if path == [] then Some([])
    else
      var n := |path| - 1;
      match Prices(path[..n])
      case None => None
      case Some(before) => if TargetPrice(path[n]).None? then None else Some(before + [TargetPrice(path[n]).value.value])
  }

  function LowestReturn(baseline: real, path: seq<real>): (m: real)
    requires baseline > 0.0 && path != []
  {
    var last := ReturnBps(path[|path| - 1], baseline);
    if |path| == 1 then last else MinReal(LowestReturn(baseline, path[..|path| - 1]), last)
  }

  /** _mae_bps: how far the path falls below the baseline, at worst. */
  function MaximumAdverseBps(baseline: real, path: seq<real>): real
    requires baseline > 0.0 && path != []
  {
    MaxReal(0.0, -LowestReturn(baseline, path))
  }

  /** No price of the path lies further below the baseline, and unless it is 0 one lies exactly there. */
  lemma {:induction false} MaximumAdverseIsReached(baseline: real, path: seq<real>)
    requires baseline > 0.0 && path != []
    ensures forall i :: 0 <= i < |path| ==> LowestReturn(baseline, path) <= ReturnBps(path[i], baseline)
    ensures exists i :: 0 <= i < |path| && ReturnBps(path[i], baseline) == LowestReturn(baseline, path)
  {
    var n := |path| - 1;
    if n > 0 {
      MaximumAdverseIsReached(baseline, path[..n]);
      assert forall i :: 0 <= i < n ==> path[..n][i] == path[i];
      var k :| 0 <= k < n && ReturnBps(path[..n][k], baseline) == LowestReturn(baseline, path[..n]);
      var lowest := if ReturnBps(path[n], baseline) < ReturnBps(path[k], baseline) then n else k;
      assert ReturnBps(path[lowest], baseline) == LowestReturn(baseline, path);
    } else {
      assert ReturnBps(path[0], baseline) == LowestReturn(baseline, path);
    }
  }

  /** The adverse excursion is 0 exactly when the path never falls below the baseline. */
  lemma NoAdverseMeansAbove(baseline: real, path: seq<real>)
    requires baseline > 0.0 && path != []
    ensures MaximumAdverseBps(baseline, path) == 0.0 <==> forall i :: 0 <= i < |path| ==> ReturnBps(path[i], baseline) >= 0.0
  {
    MaximumAdverseIsReached(baseline, path);
    var k :| 0 <= k < |path| && ReturnBps(path[k], baseline) == LowestReturn(baseline, path);
    if LowestReturn(baseline, path) >= 0.0 {
      forall i | 0 <= i < |path| ensures ReturnBps(path[i], baseline) >= 0.0 {
      }
    }
  }

  function StepReturns(baseline: real, path: seq<real>): seq<real>
    requires baseline > 0.0 && forall i :: 0 <= i < |path| ==> path[i] > 0.0
  {
    seq(|path|, i requires 0 <= i < |path| => ReturnBps(path[i], if i == 0 then baseline else path[i - 1]))
  }

  function Deviations(s: seq<real>, mean: real): seq<real> {
    seq(|s|, i requires 0 <= i < |s| => s[i] - mean)
  }

  /** The square of _volatility_bps. */
  function VarianceBps(baseline: real, path: seq<real>): real
    requires baseline > 0.0 && path != [] && forall i :: 0 <= i < |path| ==> path[i] > 0.0
  {
    var steps := StepReturns(baseline, path);
    Mean(Squares(Deviations(steps, Mean(steps))))
  }

  function GridAnswer(q: Question, baseline: real, path: seq<real>): Answer
    requires baseline > 0.0 && path != [] && forall i :: 0 <= i < |path| ==> path[i] > 0.0
  {
    if q.VOLATILITY_60S? then Variance(VarianceBps(baseline, path)) else MaximumAdverse(MaximumAdverseBps(baseline, path))
  }

  /** From the chosen baseline on. A horizon that the grid does not divide is refused. */
  function GridFrom(hash: Hash, p: QuestionPrediction, baseline: Frame, forward: seq<Frame>, now: int)
    : Result<QuestionOutcome, Refusal>
    requires ValidQuestion(p)
  {
    if TargetPrice(baseline).None? then Err(NoMidpoint)
    else if p.horizon % GRID != 0 then Err(GridDoesNotDivide)
    else match Select(hash, SlotsOf(p, baseline.instrument), forward)
      case None => if now <= p.resolvesAt + p.maxLag then Err(StillOpen) else Constructed(UnresolvedOutcome(p))
      case Some(path) =>
        var reference := TargetPrice(baseline).value.value;
        if path == [] || now < LatestKnown(path) then Err(NotKnowable)
        else match Prices(path)
          case None => Err(NoMidpoint)
          case Some(prices) =>
            Constructed(ResolvedOutcome(hash, p, baseline, path, LatestKnown(path), GridAnswer(p.question, reference, prices)))
  }

  function LatestKnown(path: seq<Frame>): (t: int)
    requires path != []
    ensures forall i :: 0 <= i < |path| ==> path[i].knownAt <= t
  {
    var n := |path| - 1;
    if n == 0 then path[0].knownAt else Max(LatestKnown(path[..n]), path[n].knownAt)
  }

  function TimescaleOf(q: Question): Timescale { if q.VOLATILITY_60S? then SHORT else MICRO }

  function GridFault(p: QuestionPrediction, journaledAt: int, now: int): Option<Refusal> {
    PolicyFault(p, p.question.VOLATILITY_60S? || p.question.FRAGILITY_MAE_60S?, FIXED_GRID_POLICY, journaledAt, now)
  }

  /** resolve_fixed_grid_question, from the journaled prediction on. */
  function ResolveGrid(hash: Hash, p: QuestionPrediction, journaledAt: int, e: Experience,
                       baselines: seq<Frame>, forward: seq<Frame>, now: int): Result<QuestionOutcome, Refusal>
    requires ValidQuestion(p)
  {
    var fault := GridFault(p, journaledAt, now);
    if fault.Some? then Err(fault.value)
    else if ExperienceFault(p, e).Some? then Err(ExperienceFault(p, e).value)
    else match Baseline(hash, p, e, baselines, TimescaleOf(p.question))
      case Err(refusal) => Err(refusal)
      case Ok(baseline) => GridFrom(hash, p, baseline, forward, now)
  }

  lemma GridFromIsStable(hash: Hash, p: QuestionPrediction, baseline: Frame,
                         forward: seq<Frame>, now: int, later: seq<Frame>, laterNow: int)
    requires ValidQuestion(p) && Apart(hash, FrameBodies(forward)) && GrownAfter(forward, later, now) && now <= laterNow
    requires GridFrom(hash, p, baseline, forward, now).Ok?
    ensures GridFrom(hash, p, baseline, later, laterNow) == GridFrom(hash, p, baseline, forward, now)
  {
    var slots := SlotsOf(p, baseline.instrument);
    SlotsAreDisjoint(p, baseline.instrument);
    GridSelectionIsStable(hash, slots, forward, later, now);
  }

  /** Once a fixed-grid outcome is final, later evidence and later retries give the identical outcome. */
  lemma GridIsStable(hash: Hash, p: QuestionPrediction, journaledAt: int, e: Experience, baselines: seq<Frame>,
                     forward: seq<Frame>, now: int, later: seq<Frame>, laterNow: int)
    requires ValidQuestion(p) && Apart(hash, FrameBodies(forward)) && GrownAfter(forward, later, now) && now <= laterNow
    requires ResolveGrid(hash, p, journaledAt, e, baselines, forward, now).Ok?
    ensures ResolveGrid(hash, p, journaledAt, e, baselines, later, laterNow)
         == ResolveGrid(hash, p, journaledAt, e, baselines, forward, now)
  {
    var baseline := Baseline(hash, p, e, baselines, TimescaleOf(p.question)).value;
    GridFromIsStable(hash, p, baseline, forward, now, later, laterNow);
  }

  lemma {:induction false} LatestIsLast(p: QuestionPrediction, path: seq<Frame>)
    requires ForwardPath(p, path)
    ensures LatestKnown(path) == path[|path| - 1].knownAt
  {
    var n := |path| - 1;
    if n > 0 {
      assert forall i :: 0 <= i < n ==> path[..n][i] == path[i];
      LatestIsLast(p, path[..n]);
    }
  }

  lemma {:induction false} PricesExist(path: seq<Frame>)
    ensures Prices(path).Some? <==> forall i :: 0 <= i < |path| ==> TargetPrice(path[i]).Some?
  {
    if path != [] {
      var n := |path| - 1;
      PricesExist(path[..n]);
      assert forall i :: 0 <= i < n ==> path[..n][i] == path[i];
    }
  }

  lemma {:induction false} SelectedAreDistinct(hash: Hash, slots: seq<Slot>, frames: seq<Frame>)
    requires Select(hash, slots, frames).Some?
    ensures DistinctFrames(Select(hash, slots, frames).value)
  {
    if slots != [] {
      var n := |slots| - 1;
      SelectedAreDistinct(hash, slots[..n], frames);
      var before, path := Select(hash, slots[..n], frames).value, Select(hash, slots, frames).value;
      forall i | 0 <= i < n ensures path[i].frameId != path[n].frameId {
        assert before[i] in before && path[i] == before[i];
      }
    }
  }

  /** The path that an outcome is constructed from, from the chosen baseline on. */
  function GridPath(hash: Hash, p: QuestionPrediction, baseline: Frame, forward: seq<Frame>, now: int): (path: Option<seq<Frame>>)
    requires ValidQuestion(p)
  {
    if TargetPrice(baseline).None? || p.horizon % GRID != 0 then None
    else match Select(hash, SlotsOf(p, baseline.instrument), forward)
      case None => None
      case Some(path) =>
        if path != [] && LatestKnown(path) <= now && Prices(path).Some? then Some(path) else None
  }

  lemma {:induction false} GridContract(hash: Hash, p: QuestionPrediction, baseline: Frame, forward: seq<Frame>, now: int)
    requires ValidQuestion(p) && ValidFrame(baseline) && forall f :: f in forward ==> ValidFrame(f)
    requires GridPath(hash, p, baseline, forward, now).Some?
    ensures
      var path := GridPath(hash, p, baseline, forward, now).value;
      var a := GridAnswer(p.question, TargetPrice(baseline).value.value, Prices(path).value);
      ValidOutcome(ResolvedOutcome(hash, p, baseline, path, LatestKnown(path), a)) <==> Fits(p, baseline, path)
  {
    var path := GridPath(hash, p, baseline, forward, now).value;
    SelectedInOrder(hash, p, baseline.instrument, forward);
    SelectedAreDistinct(hash, SlotsOf(p, baseline.instrument), forward);
    LatestIsLast(p, path);
    forall i | 0 <= i < |path| ensures ValidFrame(path[i]) {
      assert path[i] in forward;
    }
    ContractExactly(hash, p, baseline, path, GridAnswer(p.question, TargetPrice(baseline).value.value, Prices(path).value));
  }

  lemma {:induction false} GridFromExactly(hash: Hash, p: QuestionPrediction, baseline: Frame, forward: seq<Frame>, now: int)
    requires ValidQuestion(p) && ValidFrame(baseline) && forall f :: f in forward ==> ValidFrame(f)
    ensures
      var path := GridPath(hash, p, baseline, forward, now);
      && (GridFrom(hash, p, baseline, forward, now) == Err(OutcomeContract) <==> path.Some? && !Fits(p, baseline, path.value))
      && (path.Some? && Fits(p, baseline, path.value) ==> GridFrom(hash, p, baseline, forward, now).Ok?)
  {
    UnresolvedIsValid(p);
    if GridPath(hash, p, baseline, forward, now).Some? {
      GridContract(hash, p, baseline, forward, now);
    }
  }

  /** The baseline and the path that an outcome is constructed from. */
  function GridEvidence(hash: Hash, p: QuestionPrediction, journaledAt: int, e: Experience,
                        baselines: seq<Frame>, forward: seq<Frame>, now: int): (found: Option<(Frame, seq<Frame>)>)
    requires ValidQuestion(p)
    ensures found.Some? ==> Baseline(hash, p, e, baselines, TimescaleOf(p.question)) == Ok(found.value.0)
  {
    match ChosenBaseline(hash, p, e, baselines, TimescaleOf(p.question), GridFault(p, journaledAt, now))
    case None => None
    case Some(baseline) =>
      match GridPath(hash, p, baseline, forward, now)
      case None => None
      case Some(path) => Some((baseline, path))
  }

  /** Past the baseline a call is GridFrom; short of it there is no evidence. */
  lemma GridFromBaseline(hash: Hash, p: QuestionPrediction, journaledAt: int, e: Experience,
                         baselines: seq<Frame>, forward: seq<Frame>, now: int)
    requires ValidQuestion(p)
    ensures
      var evidence := GridEvidence(hash, p, journaledAt, e, baselines, forward, now);
      var baseline := Baseline(hash, p, e, baselines, TimescaleOf(p.question));
      if GridFault(p, journaledAt, now).None? && ExperienceFault(p, e).None? && baseline.Ok? then
        && ResolveGrid(hash, p, journaledAt, e, baselines, forward, now) == GridFrom(hash, p, baseline.value, forward, now)
        && evidence == (match GridPath(hash, p, baseline.value, forward, now)
                        case None => None
                        case Some(path) => Some((baseline.value, path)))
      else
        && evidence.None?
        && ResolveGrid(hash, p, journaledAt, e, baselines, forward, now).Err?
        && (ResolveGrid(hash, p, journaledAt, e, baselines, forward, now) == Err(OutcomeContract) ==>
              baseline == Err(OutcomeContract))
  {
  }

  /** The outcome contract refuses a grid outcome exactly when every slot is filled, known and priced and the
      chosen baseline became known after the cutoff or shares a forward frame's id. With that evidence the
      call resolves otherwise. */
  lemma GridResolvesExactly(hash: Hash, p: QuestionPrediction, journaledAt: int, e: Experience,
                            baselines: seq<Frame>, forward: seq<Frame>, now: int)
    requires ValidQuestion(p) && (forall f :: f in baselines ==> ValidFrame(f)) && (forall f :: f in forward ==> ValidFrame(f))
    ensures
      var evidence := GridEvidence(hash, p, journaledAt, e, baselines, forward, now);
      var outcome := ResolveGrid(hash, p, journaledAt, e, baselines, forward, now);
      && (outcome == Err(OutcomeContract) <==> evidence.Some? && !Fits(p, evidence.value.0, evidence.value.1))
      && (evidence.Some? && Fits(p, evidence.value.0, evidence.value.1) ==> outcome.Ok?)
  {
    var t := TimescaleOf(p.question);
    BaselineRefusesElsewhere(hash, p, e, baselines, t);
    GridFromBaseline(hash, p, journaledAt, e, baselines, forward, now);
    if Baseline(hash, p, e, baselines, t).Ok? {
      BaselineIsGrounded(hash, p, e, baselines, t);
      GridFromExactly(hash, p, Baseline(hash, p, e, baselines, t).value, forward, now);
    }
  }

  lemma PathAvoidsBaseline(hash: Hash, p: QuestionPrediction, baseline: Frame, forward: seq<Frame>, now: int)
    requires ValidQuestion(p) && baseline.knownAt <= p.cutoffAt && IdsDetermine([baseline] + forward)
    requires GridPath(hash, p, baseline, forward, now).Some?
    ensures Fits(p, baseline, GridPath(hash, p, baseline, forward, now).value)
  {
    var path := GridPath(hash, p, baseline, forward, now).value;
    SelectedInOrder(hash, p, baseline.instrument, forward);
    forall i | 0 <= i < |path| ensures path[i].frameId != baseline.frameId {
      assert path[i] in [baseline] + forward && baseline in [baseline] + forward;
    }
  }

  /** On a built experience, and when a frame id names one frame, the outcome contract never refuses. */
  lemma BuiltGridIsAccepted(hash: Hash, p: QuestionPrediction, journaledAt: int, e: Experience, sources: seq<Frame>,
                            baselines: seq<Frame>, forward: seq<Frame>, now: int)
    requires ValidQuestion(p) && (forall f :: f in baselines ==> ValidFrame(f)) && (forall f :: f in forward ==> ValidFrame(f))
    requires BuiltFrom(hash, e, sources) && Apart(hash, FrameBodies(sources + baselines)) && IdsDetermine(baselines + forward)
    ensures ResolveGrid(hash, p, journaledAt, e, baselines, forward, now) != Err(OutcomeContract)
    ensures GridEvidence(hash, p, journaledAt, e, baselines, forward, now).Some? ==>
      ResolveGrid(hash, p, journaledAt, e, baselines, forward, now).Ok?
  {
    var t := TimescaleOf(p.question);
    GridResolvesExactly(hash, p, journaledAt, e, baselines, forward, now);
    var evidence := GridEvidence(hash, p, journaledAt, e, baselines, forward, now);
    if evidence.Some? {
      var baseline := evidence.value.0;
      BaselineIsGrounded(hash, p, e, baselines, t);
      BaselineWasKnown(hash, p, e, baselines, t, sources);
      forall f | f in [baseline] + forward ensures f in baselines + forward {
      }
      PathAvoidsBaseline(hash, p, baseline, forward, now);
    }
  }
}

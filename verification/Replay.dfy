/** The restartable replay of replay.py: a checkpoint over the lifecycle of ShadowLifecycle. */
module Replay {
  import opened Prelude
  import opened Sorting
  import opened Execution
  import opened ShadowLifecycle

  datatype Checkpoint = Checkpoint(
    orderedIds: seq<string>, processed: seq<string>, receiptPaths: seq<string>, complete: bool)

  datatype ReplayFiles = ReplayFiles(checkpoint: Option<Checkpoint>, files: Files)

  /** What stays the same from one attempt to the next. */
  datatype Inputs = Inputs(decisions: map<string, TypedDecision>, assumptions: Assumptions)

  datatype ReplayFault = DuplicateObservation | InvalidReplayObservation | LineageChanged | LifecycleFault(fault: Fault)

  datatype ReplayEnding = ReplayStopped | ReplayDone(checkpoint: Checkpoint) | ReplayFailed(fault: ReplayFault)

  datatype Attempt = Attempt(files: ReplayFiles, ending: ReplayEnding, left: nat)

  predicate ObservationLe(a: Observation, b: Observation) {
    if a.sourceEventAt != b.sourceEventAt then a.sourceEventAt < b.sourceEventAt
    else if a.instrument != b.instrument then TextLe(a.instrument, b.instrument)
    else TextLe(a.observationId, b.observationId)
  }

  function Ids(observations: seq<Observation>): seq<string> {
    seq(|observations|, i requires 0 <= i < |observations| => observations[i].observationId)
  }

  function OrderedObservations(observations: seq<Observation>): seq<Observation> { Sorted(observations, ObservationLe) }

  predicate DistinctIds(observations: seq<Observation>) {
    forall i, j :: 0 <= i < j < |observations| ==> observations[i].observationId != observations[j].observationId
  }

  predicate AllWellFormed(observations: seq<Observation>) {
    forall i :: 0 <= i < |observations| ==> observations[i].wellFormed
  }

  function OperationOf(q: Inputs, o: Observation): Operation
    requires o.observationId in q.decisions
  {
    Operation(q.decisions[o.observationId], o, q.assumptions)
  }

  function ReceiptPath(requestId: string): string { "receipts/execution/" + requestId + ".json" }

  function Processed(c: Checkpoint, id: string, path: Option<string>): Checkpoint {
    var paths := if path.Some? && path.value !in c.receiptPaths then c.receiptPaths + [path.value] else c.receiptPaths;
    c.(processed := c.processed + [id], receiptPaths := paths)
  }

  function Saved(f: ReplayFiles, c: Checkpoint): ReplayFiles { f.(checkpoint := Some(c)) }

  datatype Item = Item(files: ReplayFiles, checkpoint: Checkpoint, ending: Option<ReplayEnding>, left: nat)

  /** One round of the loop: an observation already processed is passed over; one without a decision is
      noted; one with a decision goes through the lifecycle first. */
  function ItemRun(hash: OpHash, q: Inputs, o: Observation, f: ReplayFiles, c: Checkpoint, call: Call, budget: nat)
    : (r: Item)
    requires WellKept(f.files)
    ensures WellKept(r.files.files)
  {
    if o.observationId in c.processed then Item(f, c, None, budget)
    else if o.observationId !in q.decisions then
      var next := Processed(c, o.observationId, None);
      if budget == 0 then Item(f, c, Some(ReplayStopped), 0) else Item(Saved(f, next), next, None, budget - 1)
    else
      var run := Invoke(hash, f.files, OperationOf(q, o), call, budget);
      var after := f.(files := run.files);
      match run.ending
      case Stopped => Item(after, c, Some(ReplayStopped), 0)
      case Failed(fault) => Item(after, c, Some(ReplayFailed(LifecycleFault(fault))), run.left)
      case Done(receipt) =>
        var next := Processed(c, o.observationId, Some(ReceiptPath(receipt.request.requestId)));
        if run.left == 0 then Item(after, c, Some(ReplayStopped), 0)
        else Item(Saved(after, next), next, None, run.left - 1)
  }

  /** The loop over the ordered observations, from the k-th on, with the checkpoint c on file. */
  function Loop(hash: OpHash, q: Inputs, ordered: seq<Observation>, k: nat, f: ReplayFiles, c: Checkpoint,
                call: Call, budget: nat): Attempt
    requires WellKept(f.files) && k <= |ordered|
    decreases |ordered| - k
  {
    if k == |ordered| then
      if budget == 0 then Attempt(f, ReplayStopped, 0)
      else Attempt(Saved(f, c.(complete := true)), ReplayDone(c.(complete := true)), budget - 1)
    else
      var item := ItemRun(hash, q, ordered[k], f, c, call, budget);
      if item.ending.Some? then Attempt(item.files, item.ending.value, item.left)
      else Loop(hash, q, ordered, k + 1, item.files, item.checkpoint, call, item.left)
  }

  function FreshCheckpoint(ordered: seq<Observation>): Checkpoint { Checkpoint(Ids(ordered), [], [], false) }

  /** ReplayEngine.run, with as many durable writes as the budget allows. */
  function RunReplay(hash: OpHash, observations: seq<Observation>, q: Inputs, f: ReplayFiles, call: Call, budget: nat): Attempt
    requires WellKept(f.files)
  {
    if !DistinctIds(observations) then Attempt(f, ReplayFailed(DuplicateObservation), budget)
    else if !AllWellFormed(observations) then Attempt(f, ReplayFailed(InvalidReplayObservation), budget)
    else
      var ordered := OrderedObservations(observations);
      match f.checkpoint
      case Some(c) =>
        if c.orderedIds != Ids(ordered) then Attempt(f, ReplayFailed(LineageChanged), budget)
        else Loop(hash, q, ordered, 0, f, c, call, budget)
      case None =>
        var c := FreshCheckpoint(ordered);
        if budget == 0 then Attempt(f, ReplayStopped, 0)
        else Loop(hash, q, ordered, 0, Saved(f, c), c, call, budget - 1)
  }

  // ------------------------------------------------------------------ order of the inputs

  lemma ObservationLeIsTotalPreorder()
    ensures TotalPreorder(ObservationLe)
  {
    forall x: Observation, y: Observation ensures ObservationLe(x, y) || ObservationLe(y, x) {
      TextLeTotal(x.instrument, y.instrument);
      TextLeTotal(x.observationId, y.observationId);
    }
    forall x: Observation, y: Observation, z: Observation | ObservationLe(x, y) && ObservationLe(y, z)
      ensures ObservationLe(x, z)
    {
      ObservationLeTransitive(x, y, z);
    }
  }

  lemma ObservationLeTransitive(x: Observation, y: Observation, z: Observation)
    requires ObservationLe(x, y) && ObservationLe(y, z)
    ensures ObservationLe(x, z)
  {
    if x.sourceEventAt == y.sourceEventAt == z.sourceEventAt {
      if x.instrument == y.instrument == z.instrument {
        TextLeTransitive(x.observationId, y.observationId, z.observationId);
      } else if x.instrument != y.instrument && y.instrument != z.instrument {
        TextLeTransitive(x.instrument, y.instrument, z.instrument);
        if x.instrument == z.instrument {
          TextLeAntisymmetric(x.instrument, y.instrument);
        }
      }
    }
  }

  lemma DistinctIdsAreStrict(observations: seq<Observation>)
    requires DistinctIds(observations)
    ensures Strict(observations, ObservationLe)
  {
    forall x, y | x in observations && y in observations && ObservationLe(x, y) && ObservationLe(y, x) ensures x == y {
      if x.instrument != y.instrument {
        TextLeAntisymmetric(x.instrument, y.instrument);
      } else {
        TextLeAntisymmetric(x.observationId, y.observationId);
      }
      var i :| 0 <= i < |observations| && observations[i] == x;
      var j :| 0 <= j < |observations| && observations[j] == y;
      assert i == j;
    }
  }

  lemma ChecksPermute(a: seq<Observation>, b: seq<Observation>)
    requires multiset(a) == multiset(b)
    ensures DistinctIds(a) ==> DistinctIds(b)
    ensures AllWellFormed(a) ==> AllWellFormed(b)
  {
    forall i | 0 <= i < |b| ensures b[i] in a {
      assert b[i] in multiset(b);
    }
    if DistinctIds(a) {
      DistinctByMultiset(a, b);
      forall i, j | 0 <= i < j < |b| ensures b[i].observationId != b[j].observationId {
        var x :| 0 <= x < |a| && a[x] == b[i];
        var y :| 0 <= y < |a| && a[y] == b[j];
        assert x != y;
      }
    }
  }

  /** Handing in the same observations in another order changes nothing: not the lineage, not the run. */
  lemma InputOrderIsIrrelevant(hash: OpHash, observations: seq<Observation>, shuffled: seq<Observation>, q: Inputs,
                               f: ReplayFiles, call: Call, budget: nat)
    requires WellKept(f.files) && multiset(shuffled) == multiset(observations)
    ensures RunReplay(hash, shuffled, q, f, call, budget) == RunReplay(hash, observations, q, f, call, budget)
    ensures DistinctIds(observations) ==> OrderedObservations(shuffled) == OrderedObservations(observations)
  {
    ChecksPermute(observations, shuffled);
    ChecksPermute(shuffled, observations);
    if DistinctIds(observations) {
      ObservationLeIsTotalPreorder();
      DistinctIdsAreStrict(observations);
      SortingForgetsOrder(observations, shuffled, ObservationLe);
    }
  }

  // ------------------------------------------------------------------ what every attempt keeps

  function PathsOf(ordered: seq<Observation>, q: Inputs): seq<string> {
    if ordered == [] then []
    else
      var o, before := ordered[|ordered| - 1], PathsOf(ordered[..|ordered| - 1], q);
      if o.observationId !in q.decisions then before
      else
        var path := ReceiptPath(Key(OperationOf(q, o)));
        if path in before then before else before + [path]
  }

  /** The checkpoint after the first m of the ordered observations. */
  function CheckpointAt(ordered: seq<Observation>, q: Inputs, m: nat, complete: bool): Checkpoint
    requires m <= |ordered|
  {
    Checkpoint(Ids(ordered), Ids(ordered)[..m], PathsOf(ordered[..m], q), complete)
  }

  /** The operation of a processed observation has run: its journal is there, for the same inputs. */
  ghost predicate Ran(hash: OpHash, f: Files, op: Operation) {
    Key(op) in f.journals && f.journals[Key(op)].inputHash == InputHash(hash, op) && OperationFault(op).None?
  }

  ghost predicate RanUpTo(hash: OpHash, ordered: seq<Observation>, q: Inputs, f: Files, m: nat)
    requires m <= |ordered|
  {
    forall i :: 0 <= i < m && ordered[i].observationId in q.decisions ==> Ran(hash, f, OperationOf(q, ordered[i]))
  }

  /** Receipts are filed under their own request id. */
  ghost predicate FiledByRequest(f: Files) {
    forall k :: k in f.receipts ==> f.receipts[k].request.requestId == k
  }

  /** What is on file between two writes: nothing yet, or the checkpoint of some prefix. */
  ghost predicate Progress(hash: OpHash, ordered: seq<Observation>, q: Inputs, f: ReplayFiles) {
    && WellKept(f.files) && FiledByRequest(f.files)
    && (forall k :: k in f.files.journals ==> FinalizedHasReceipt(f.files, k))
    && (f.checkpoint.Some? ==>
          var c := f.checkpoint.value;
          && |c.processed| <= |ordered| && (c.complete ==> |c.processed| == |ordered|)
          && c == CheckpointAt(ordered, q, |c.processed|, c.complete)
          && RanUpTo(hash, ordered, q, f.files, |c.processed|))
  }

  ghost predicate Tidy(f: Files) {
    WellKept(f) && FiledByRequest(f) && forall k :: k in f.journals ==> FinalizedHasReceipt(f, k)
  }

  lemma StepKeepsTidy(hash: OpHash, f: Files, op: Operation, call: Call)
    requires Tidy(f) && Step(hash, f, op, call).Wrote?
    ensures Tidy(Step(hash, f, op, call).files)
  {
    StepExtends(hash, f, op, call);
    if Key(op) in f.journals {
      StageStepShape(hash, f, op, f.journals[Key(op)], call);
    }
  }

  lemma {:induction false} InvokeKeepsTidy(hash: OpHash, f: Files, op: Operation, call: Call, budget: nat)
    requires Tidy(f)
    ensures Tidy(Invoke(hash, f, op, call, budget).files)
    decreases budget
  {
    var step := Step(hash, f, op, call);
    if step.Wrote? && budget > 0 {
      StepKeepsTidy(hash, f, op, call);
      InvokeKeepsTidy(hash, step.files, op, call, budget - 1);
    }
  }

  lemma {:induction false} ReturnedHadNoFault(hash: OpHash, f: Files, op: Operation, call: Call, budget: nat)
    requires WellKept(f) && Invoke(hash, f, op, call, budget).ending.Done?
    ensures OperationFault(op).None?
  {
  }

  /** A lifecycle call that returns has run, and its receipt carries the operation's request id. */
  lemma ReturnedHasRun(hash: OpHash, f: Files, op: Operation, call: Call, budget: nat)
    requires Tidy(f) && Invoke(hash, f, op, call, budget).ending.Done?
    ensures
      var run := Invoke(hash, f, op, call, budget);
      Tidy(run.files) && Ran(hash, run.files, op) && run.ending.receipt.request.requestId == Key(op)
  {
    InvokeKeepsTidy(hash, f, op, call, budget);
    ReturnedIsHeld(hash, f, op, call, budget);
    ReturnedHadNoFault(hash, f, op, call, budget);
  }

  lemma RanStays(hash: OpHash, ordered: seq<Observation>, q: Inputs, a: Files, b: Files, m: nat)
    requires m <= |ordered| && RanUpTo(hash, ordered, q, a, m) && Extends(a, b)
    ensures RanUpTo(hash, ordered, q, b, m)
  {
  }

  lemma ProgressSplits(hash: OpHash, ordered: seq<Observation>, q: Inputs, f: ReplayFiles)
    ensures Progress(hash, ordered, q, f) <==>
      Tidy(f.files) && (f.checkpoint.Some? ==> CheckpointHolds(hash, ordered, q, f.files, f.checkpoint.value))
  {
  }

  ghost predicate CheckpointHolds(hash: OpHash, ordered: seq<Observation>, q: Inputs, f: Files, c: Checkpoint) {
    && |c.processed| <= |ordered| && (c.complete ==> |c.processed| == |ordered|)
    && c == CheckpointAt(ordered, q, |c.processed|, c.complete)
    && RanUpTo(hash, ordered, q, f, |c.processed|)
  }

  lemma IdAt(ordered: seq<Observation>, m: nat, k: nat)
    requires DistinctIds(ordered) && m <= |ordered| && k < |ordered|
    ensures ordered[k].observationId in Ids(ordered)[..m] <==> k < m
  {
    if ordered[k].observationId in Ids(ordered)[..m] {
      var i :| 0 <= i < m && Ids(ordered)[i] == ordered[k].observationId;
    }
    if k < m {
      assert Ids(ordered)[..m][k] == ordered[k].observationId;
    }
  }

  /** The checkpoint moves from one prefix to the next. */
  lemma NextCheckpoint(ordered: seq<Observation>, q: Inputs, m: nat, path: Option<string>)
    requires m < |ordered|
    requires
      var o := ordered[m];
      path == (if o.observationId in q.decisions then Some(ReceiptPath(Key(OperationOf(q, o)))) else None)
    ensures Processed(CheckpointAt(ordered, q, m, false), ordered[m].observationId, path)
         == CheckpointAt(ordered, q, m + 1, false)
  {
    assert ordered[..m + 1][..m] == ordered[..m];
    assert Ids(ordered)[..m + 1] == Ids(ordered)[..m] + [ordered[m].observationId];
  }

  ghost predicate OnFile(hash: OpHash, ordered: seq<Observation>, q: Inputs, f: ReplayFiles, c: Checkpoint) {
    f.checkpoint == Some(c) && Tidy(f.files) && CheckpointHolds(hash, ordered, q, f.files, c)
  }

  lemma DecidedItemKeepsProgress(hash: OpHash, q: Inputs, ordered: seq<Observation>, k: nat,
                                 f: ReplayFiles, c: Checkpoint, call: Call, budget: nat)
    requires k < |ordered| && ordered[k].observationId in q.decisions && OnFile(hash, ordered, q, f, c)
    requires |c.processed| == k && ordered[k].observationId !in c.processed
    ensures
      var item := ItemRun(hash, q, ordered[k], f, c, call, budget);
      && OnFile(hash, ordered, q, item.files, item.checkpoint)
      && (item.ending.None? ==> k + 1 == |item.checkpoint.processed|)
      && (item.ending.Some? ==> !item.ending.value.ReplayDone?)
  {
    var op := OperationOf(q, ordered[k]);
    var run := Invoke(hash, f.files, op, call, budget);
    InvokeKeepsTidy(hash, f.files, op, call, budget);
    InvokeExtends(hash, f.files, op, call, budget);
    RanStays(hash, ordered, q, f.files, run.files, k);
    if run.ending.Done? {
      ReturnedHasRun(hash, f.files, op, call, budget);
      NextCheckpoint(ordered, q, k, Some(ReceiptPath(Key(op))));
    }
  }

  lemma ItemKeepsProgress(hash: OpHash, q: Inputs, ordered: seq<Observation>, k: nat,
                          f: ReplayFiles, c: Checkpoint, call: Call, budget: nat)
    requires DistinctIds(ordered) && k < |ordered| && k <= |c.processed| && OnFile(hash, ordered, q, f, c)
    ensures
      var item := ItemRun(hash, q, ordered[k], f, c, call, budget);
      && OnFile(hash, ordered, q, item.files, item.checkpoint)
      && (item.ending.None? ==> k + 1 <= |item.checkpoint.processed|)
      && (item.ending.Some? ==> !item.ending.value.ReplayDone?)
  {
    var m := |c.processed|;
    IdAt(ordered, m, k);
    if k == m {
      if ordered[k].observationId in q.decisions {
        DecidedItemKeepsProgress(hash, q, ordered, k, f, c, call, budget);
      } else {
        NextCheckpoint(ordered, q, m, None);
      }
    }
  }

  /** Every attempt, stopped or not, leaves the checkpoint of a prefix; one that completes leaves the
      complete checkpoint, which depends on the inputs alone. */
  lemma {:induction false} LoopKeepsProgress(hash: OpHash, q: Inputs, ordered: seq<Observation>, k: nat,
                                             f: ReplayFiles, c: Checkpoint, call: Call, budget: nat)
    requires DistinctIds(ordered) && k <= |ordered| && k <= |c.processed| && OnFile(hash, ordered, q, f, c)
    ensures
      var a := Loop(hash, q, ordered, k, f, c, call, budget);
      && Progress(hash, ordered, q, a.files)
      && (a.ending.ReplayDone? ==>
            a.ending.checkpoint == CheckpointAt(ordered, q, |ordered|, true)
            && a.files.checkpoint == Some(a.ending.checkpoint))
    decreases |ordered| - k
  {
    if k < |ordered| {
      var item := ItemRun(hash, q, ordered[k], f, c, call, budget);
      ItemKeepsProgress(hash, q, ordered, k, f, c, call, budget);
      if item.ending.None? {
        LoopKeepsProgress(hash, q, ordered, k + 1, item.files, item.checkpoint, call, item.left);
      }
    }
  }

  lemma AttemptKeepsProgress(hash: OpHash, observations: seq<Observation>, q: Inputs, f: ReplayFiles, call: Call, budget: nat)
    requires Progress(hash, OrderedObservations(observations), q, f)
    ensures
      var ordered, a := OrderedObservations(observations), RunReplay(hash, observations, q, f, call, budget);
      && Progress(hash, ordered, q, a.files)
      && (a.ending.ReplayDone? ==>
            a.ending.checkpoint == CheckpointAt(ordered, q, |ordered|, true)
            && a.files.checkpoint == Some(a.ending.checkpoint))
  {
    if DistinctIds(observations) && AllWellFormed(observations) {
      var ordered := OrderedObservations(observations);
      SortedPermutes(observations, ObservationLe);
      ChecksPermute(observations, ordered);
      if f.checkpoint.Some? {
        if f.checkpoint.value.orderedIds == Ids(ordered) {
          LoopKeepsProgress(hash, q, ordered, 0, f, f.checkpoint.value, call, budget);
        }
      } else if budget > 0 {
        var c := FreshCheckpoint(ordered);
        assert ordered[..0] == [];
        assert c == CheckpointAt(ordered, q, 0, false);
        LoopKeepsProgress(hash, q, ordered, 0, Saved(f, c), c, call, budget - 1);
      }
    }
  }

  // ------------------------------------------------------------------ histories of attempts

  datatype Try = Try(call: Call, budget: nat)

  function ReplayFilesAfter(hash: OpHash, observations: seq<Observation>, q: Inputs, f: ReplayFiles, tries: seq<Try>)
    : (after: ReplayFiles)
    requires Progress(hash, OrderedObservations(observations), q, f)
    ensures Progress(hash, OrderedObservations(observations), q, after)
  {
    if tries == [] then f
    else
      var t, before := tries[|tries| - 1], ReplayFilesAfter(hash, observations, q, f, tries[..|tries| - 1]);
      AttemptKeepsProgress(hash, observations, q, before, t.call, t.budget);
      RunReplay(hash, observations, q, before, t.call, t.budget).files
  }

  function ReplayEndingOf(hash: OpHash, observations: seq<Observation>, q: Inputs, f: ReplayFiles, tries: seq<Try>, i: nat)
    : ReplayEnding
    requires Progress(hash, OrderedObservations(observations), q, f) && i < |tries|
  {
    RunReplay(hash, observations, q, ReplayFilesAfter(hash, observations, q, f, tries[..i]),
              tries[i].call, tries[i].budget).ending
  }

  /** However the attempts are interrupted, with whatever parameters: what is processed is always a
      prefix of the sorted ids, and every attempt that completes returns the same complete checkpoint. */
  lemma {:induction false} EveryCompletionIsTheSame(hash: OpHash, observations: seq<Observation>, q: Inputs, f: ReplayFiles,
                                 tries: seq<Try>, i: nat)
    requires Progress(hash, OrderedObservations(observations), q, f) && i < |tries|
    ensures
      var ordered, after := OrderedObservations(observations), ReplayFilesAfter(hash, observations, q, f, tries);
      && (after.checkpoint.Some? ==> after.checkpoint.value.processed <= Ids(ordered))
      && (ReplayEndingOf(hash, observations, q, f, tries, i).ReplayDone? ==>
            ReplayEndingOf(hash, observations, q, f, tries, i).checkpoint == CheckpointAt(ordered, q, |ordered|, true))
  {
    AttemptKeepsProgress(hash, observations, q, ReplayFilesAfter(hash, observations, q, f, tries[..i]),
                         tries[i].call, tries[i].budget);
  }

  ghost predicate DistinctKeys(ordered: seq<Observation>, q: Inputs) {
    forall i, j :: 0 <= i < j < |ordered| && ordered[i].observationId in q.decisions && ordered[j].observationId in q.decisions
      ==> Key(OperationOf(q, ordered[i])) != Key(OperationOf(q, ordered[j]))
  }

  /** The operations that a replay of the observations is about. */
  function Operations(q: Inputs, ordered: seq<Observation>): set<Operation> {
    set o | o in ordered && o.observationId in q.decisions :: OperationOf(q, o)
  }

  /** A replay can only complete when no two observations share a decision id: the second operation
      under an id conflicts with the first. */
  lemma CompletionNeedsDistinctDecisions(hash: OpHash, ordered: seq<Observation>, q: Inputs, f: ReplayFiles)
    requires OpApart(hash, Operations(q, ordered)) && DistinctIds(ordered) && Progress(hash, ordered, q, f)
    requires f.checkpoint.Some? && f.checkpoint.value.complete
    ensures DistinctKeys(ordered, q)
  {
    forall i, j | 0 <= i < j < |ordered| && ordered[i].observationId in q.decisions && ordered[j].observationId in q.decisions
      ensures Key(OperationOf(q, ordered[i])) != Key(OperationOf(q, ordered[j]))
    {
      var a, b := OperationOf(q, ordered[i]), OperationOf(q, ordered[j]);
      assert Ran(hash, f.files, a) && Ran(hash, f.files, b);
      assert a.decision.observationId != b.decision.observationId;
      assert a in Operations(q, ordered) && b in Operations(q, ordered);
      assert InputOf(a) != InputOf(b);
    }
  }

  // ------------------------------------------------------------------ resuming

  /** What is processed already is passed over. */
  lemma {:induction false} LoopSkips(hash: OpHash, q: Inputs, ordered: seq<Observation>, j: nat, k: nat,
                                     f: ReplayFiles, c: Checkpoint, call: Call, budget: nat)
    requires DistinctIds(ordered) && j <= k <= |c.processed| && OnFile(hash, ordered, q, f, c)
    ensures Loop(hash, q, ordered, j, f, c, call, budget) == Loop(hash, q, ordered, k, f, c, call, budget)
    decreases k - j
  {
    if j < k {
      IdAt(ordered, |c.processed|, j);
      LoopSkips(hash, q, ordered, j + 1, k, f, c, call, budget);
    }
  }

  lemma ItemResumes(hash: OpHash, q: Inputs, o: Observation, f: ReplayFiles, c: Checkpoint, call: Call, first: nat, second: nat)
    requires WellKept(f.files)
    ensures
      var item := ItemRun(hash, q, o, f, c, call, first);
      && (item.ending == Some(ReplayStopped) ==>
            ItemRun(hash, q, o, item.files, c, call, second) == ItemRun(hash, q, o, f, c, call, first + second))
      && (item.ending.None? ==>
            ItemRun(hash, q, o, f, c, call, first + second)
            == Item(item.files, item.checkpoint, None, item.left + second))
  {
    if o.observationId !in c.processed && o.observationId in q.decisions {
      var op := OperationOf(q, o);
      var run := Invoke(hash, f.files, op, call, first);
      if run.ending.Stopped? {
        InvokeResumes(hash, f.files, op, call, first, second);
      } else if run.ending.Done? {
        EndedNeedsNoMore(hash, f.files, op, call, first, second);
      }
    }
  }

  ghost predicate Continues(hash: OpHash, q: Inputs, ordered: seq<Observation>, stopped: ReplayFiles, call: Call,
                            budget: nat, whole: Attempt) {
    && stopped.checkpoint.Some? && WellKept(stopped.files)
    && Loop(hash, q, ordered, 0, stopped, stopped.checkpoint.value, call, budget) == whole
  }

  /** The round in which the stop came is made up for by the next attempt. */
  lemma StoppedItemResumes(hash: OpHash, q: Inputs, ordered: seq<Observation>, k: nat,
                           f: ReplayFiles, c: Checkpoint, call: Call, first: nat, second: nat)
    requires DistinctIds(ordered) && k < |ordered| && k <= |c.processed| && OnFile(hash, ordered, q, f, c)
    requires ItemRun(hash, q, ordered[k], f, c, call, first).ending == Some(ReplayStopped)
    ensures Continues(hash, q, ordered, ItemRun(hash, q, ordered[k], f, c, call, first).files, call, second,
                      Loop(hash, q, ordered, k, f, c, call, first + second))
  {
    var item := ItemRun(hash, q, ordered[k], f, c, call, first);
    ItemKeepsProgress(hash, q, ordered, k, f, c, call, first);
    ItemResumes(hash, q, ordered[k], f, c, call, first, second);
    LoopSkips(hash, q, ordered, 0, k, item.files, c, call, second);
  }

  /** Stopped with everything processed: only the completion mark is left to write. */
  lemma StoppedAtTheEnd(hash: OpHash, q: Inputs, ordered: seq<Observation>, f: ReplayFiles, c: Checkpoint, call: Call,
                        first: nat, second: nat)
    requires DistinctIds(ordered) && |ordered| <= |c.processed| && OnFile(hash, ordered, q, f, c)
    requires Loop(hash, q, ordered, |ordered|, f, c, call, first).ending.ReplayStopped?
    ensures Continues(hash, q, ordered, Loop(hash, q, ordered, |ordered|, f, c, call, first).files, call, second,
                      Loop(hash, q, ordered, |ordered|, f, c, call, first + second))
  {
    LoopSkips(hash, q, ordered, 0, |ordered|, f, c, call, second);
  }

  lemma LoopGoesOn(hash: OpHash, q: Inputs, ordered: seq<Observation>, k: nat, f: ReplayFiles, c: Checkpoint,
                   call: Call, budget: nat, item: Item)
    requires WellKept(f.files) && k < |ordered| && ItemRun(hash, q, ordered[k], f, c, call, budget) == item
    requires item.ending.None? && WellKept(item.files.files)
    ensures Loop(hash, q, ordered, k, f, c, call, budget)
         == Loop(hash, q, ordered, k + 1, item.files, item.checkpoint, call, item.left)
  {
  }

  /** A round that goes on goes on the same way when more writes are allowed. */
  lemma ItemGoesOn(hash: OpHash, q: Inputs, o: Observation, f: ReplayFiles, c: Checkpoint, call: Call,
                   first: nat, second: nat, item: Item)
    requires WellKept(f.files) && ItemRun(hash, q, o, f, c, call, first) == item && item.ending.None?
    ensures ItemRun(hash, q, o, f, c, call, first + second) == Item(item.files, item.checkpoint, None, item.left + second)
  {
    ItemResumes(hash, q, o, f, c, call, first, second);
  }

  lemma MoreWritesGoOn(hash: OpHash, q: Inputs, ordered: seq<Observation>, k: nat, f: ReplayFiles, c: Checkpoint,
                       call: Call, first: nat, second: nat, item: Item)
    requires WellKept(f.files) && k < |ordered| && ItemRun(hash, q, ordered[k], f, c, call, first) == item
    requires item.ending.None? && WellKept(item.files.files)
    ensures Loop(hash, q, ordered, k, f, c, call, first + second)
         == Loop(hash, q, ordered, k + 1, item.files, item.checkpoint, call, item.left + second)
  {
    var budget, more := first + second, Item(item.files, item.checkpoint, None, item.left + second);
    assert ItemRun(hash, q, ordered[k], f, c, call, budget) == more by {
      ItemGoesOn(hash, q, ordered[k], f, c, call, first, second, item);
    }
    LoopGoesOn(hash, q, ordered, k, f, c, call, budget, more);
  }

  lemma {:induction false} LoopResumes(hash: OpHash, q: Inputs, ordered: seq<Observation>, k: nat,
                                       f: ReplayFiles, c: Checkpoint, call: Call, first: nat, second: nat,
                                       part: Attempt, whole: Attempt)
    requires DistinctIds(ordered) && k <= |ordered| && k <= |c.processed| && OnFile(hash, ordered, q, f, c)
    requires part == Loop(hash, q, ordered, k, f, c, call, first) && part.ending.ReplayStopped?
    requires whole == Loop(hash, q, ordered, k, f, c, call, first + second)
    ensures Continues(hash, q, ordered, part.files, call, second, whole)
    decreases |ordered| - k
  {
    if k == |ordered| {
      StoppedAtTheEnd(hash, q, ordered, f, c, call, first, second);
    } else {
      var item := ItemRun(hash, q, ordered[k], f, c, call, first);
      if item.ending.None? {
        ItemKeepsProgress(hash, q, ordered, k, f, c, call, first);
        LoopGoesOn(hash, q, ordered, k, f, c, call, first, item);
        MoreWritesGoOn(hash, q, ordered, k, f, c, call, first, second, item);
        LoopResumes(hash, q, ordered, k + 1, item.files, item.checkpoint, call, item.left, second, part, whole);
      } else {
        StoppedItemResumes(hash, q, ordered, k, f, c, call, first, second);
      }
    }
  }

  ghost predicate Runs(observations: seq<Observation>) { DistinctIds(observations) && AllWellFormed(observations) }

  /** With a checkpoint of these observations on file, an attempt is the loop over them. */
  lemma {:induction false} RunIsLoop(hash: OpHash, observations: seq<Observation>, q: Inputs, f: ReplayFiles, call: Call, budget: nat)
    requires WellKept(f.files) && f.checkpoint.Some? && Runs(observations)
    requires f.checkpoint.value.orderedIds == Ids(OrderedObservations(observations))
    ensures RunReplay(hash, observations, q, f, call, budget)
         == Loop(hash, q, OrderedObservations(observations), 0, f, f.checkpoint.value, call, budget)
  {
  }

  lemma {:induction false} StoppedLoopResumes(hash: OpHash, observations: seq<Observation>, q: Inputs, f: ReplayFiles, call: Call,
                           first: nat, second: nat)
    requires Progress(hash, OrderedObservations(observations), q, f) && f.checkpoint.Some? && Runs(observations)
    requires f.checkpoint.value.orderedIds == Ids(OrderedObservations(observations))
    requires Loop(hash, q, OrderedObservations(observations), 0, f, f.checkpoint.value, call, first).ending.ReplayStopped?
    ensures
      var ordered := OrderedObservations(observations);
      var stopped := Loop(hash, q, ordered, 0, f, f.checkpoint.value, call, first).files;
      && WellKept(stopped.files)
      && RunReplay(hash, observations, q, stopped, call, second)
         == Loop(hash, q, ordered, 0, f, f.checkpoint.value, call, first + second)
  {
    var ordered := OrderedObservations(observations);
    SortedPermutes(observations, ObservationLe);
    ChecksPermute(observations, ordered);
    LoopResumes(hash, q, ordered, 0, f, f.checkpoint.value, call, first, second,
                Loop(hash, q, ordered, 0, f, f.checkpoint.value, call, first),
                Loop(hash, q, ordered, 0, f, f.checkpoint.value, call, first + second));
    RunIsLoop(hash, observations, q, f, call, first);
    AttemptKeepsProgress(hash, observations, q, f, call, first);
    RunIsLoop(hash, observations, q, Loop(hash, q, ordered, 0, f, f.checkpoint.value, call, first).files, call, second);
  }

  /** An attempt that is stopped, and one that goes on with the same parameters, are together the
      uninterrupted attempt: same checkpoint, same journals, same receipts. */
  lemma AttemptResumes(hash: OpHash, observations: seq<Observation>, q: Inputs, f: ReplayFiles, call: Call,
                       first: nat, second: nat)
    requires Progress(hash, OrderedObservations(observations), q, f)
    requires RunReplay(hash, observations, q, f, call, first).ending.ReplayStopped?
    ensures
      var stopped := RunReplay(hash, observations, q, f, call, first).files;
      && WellKept(stopped.files)
      && RunReplay(hash, observations, q, stopped, call, second) == RunReplay(hash, observations, q, f, call, first + second)
  {
    if f.checkpoint.Some? {
      StoppedLoopResumes(hash, observations, q, f, call, first, second);
    } else if first > 0 {
      var ordered := OrderedObservations(observations);
      var c := FreshCheckpoint(ordered);
      FreshIsProgress(hash, ordered, q, f);
      StoppedLoopResumes(hash, observations, q, Saved(f, c), call, first - 1, second);
    }
  }

  lemma FreshIsProgress(hash: OpHash, ordered: seq<Observation>, q: Inputs, f: ReplayFiles)
    requires Progress(hash, ordered, q, f)
    ensures Progress(hash, ordered, q, Saved(f, FreshCheckpoint(ordered)))
  {
    assert ordered[..0] == [];
    assert FreshCheckpoint(ordered) == CheckpointAt(ordered, q, 0, false);
  }

  // ------------------------------------------------------------------ when an attempt completes

  predicate Decided(q: Inputs, ordered: seq<Observation>, i: nat)
    requires i < |ordered|
  {
    ordered[i].observationId in q.decisions
  }

  /** Every decision still outstanding can go through the lifecycle. */
  ghost predicate AllCanComplete(hash: OpHash, q: Inputs, ordered: seq<Observation>, k: nat, f: Files, call: Call)
    requires WellKept(f)
  {
    forall i :: k <= i < |ordered| && Decided(q, ordered, i) ==> CanComplete(hash, f, OperationOf(q, ordered[i]), call)
  }

  /** The durable writes an attempt from the k-th observation on still needs. */
  function WritesNeeded(q: Inputs, ordered: seq<Observation>, k: nat, f: Files): nat
    requires k <= |ordered|
    decreases |ordered| - k
  {
    if k == |ordered| then 1
    else (if Decided(q, ordered, k) then WritesLeft(f, OperationOf(q, ordered[k])) else 0)
         + 1 + WritesNeeded(q, ordered, k + 1, f)
  }

  ghost predicate SameFor(a: Files, b: Files, key: string) {
    SameAt(a, b, key) && (key in a.receipts ==> b.receipts[key] == a.receipts[key])
  }

  lemma OutlookIsLocal(hash: OpHash, a: Files, b: Files, op: Operation, call: Call)
    requires WellKept(a) && WellKept(b) && SameFor(a, b, Key(op))
    ensures CanComplete(hash, a, op, call) <==> CanComplete(hash, b, op, call)
    ensures WritesLeft(a, op) == WritesLeft(b, op)
  {
  }

  ghost predicate SameFrom(q: Inputs, ordered: seq<Observation>, k: nat, a: Files, b: Files) {
    forall i :: k <= i < |ordered| && Decided(q, ordered, i) ==> SameFor(a, b, Key(OperationOf(q, ordered[i])))
  }

  lemma {:induction false} OutlooksAreLocal(hash: OpHash, q: Inputs, ordered: seq<Observation>, k: nat,
                                            a: Files, b: Files, call: Call)
    requires k <= |ordered| && WellKept(a) && WellKept(b) && SameFrom(q, ordered, k, a, b)
    ensures AllCanComplete(hash, q, ordered, k, a, call) <==> AllCanComplete(hash, q, ordered, k, b, call)
    ensures WritesNeeded(q, ordered, k, a) == WritesNeeded(q, ordered, k, b)
    decreases |ordered| - k
  {
    if k < |ordered| {
      OutlooksAreLocal(hash, q, ordered, k + 1, a, b, call);
      if Decided(q, ordered, k) {
        OutlookIsLocal(hash, a, b, OperationOf(q, ordered[k]), call);
      }
      AllFrom(hash, q, ordered, k, a, call);
      AllFrom(hash, q, ordered, k, b, call);
    }
  }

  lemma AllFrom(hash: OpHash, q: Inputs, ordered: seq<Observation>, k: nat, f: Files, call: Call)
    requires k < |ordered| && WellKept(f)
    ensures AllCanComplete(hash, q, ordered, k, f, call) <==>
      (Decided(q, ordered, k) ==> CanComplete(hash, f, OperationOf(q, ordered[k]), call))
      && AllCanComplete(hash, q, ordered, k + 1, f, call)
  {
  }

  /** One operation's call changes nothing for the operations of the later observations. */
  lemma OthersAreUntouched(hash: OpHash, q: Inputs, ordered: seq<Observation>, k: nat, f: Files, call: Call, budget: nat)
    requires k < |ordered| && Decided(q, ordered, k) && DistinctKeys(ordered, q) && WellKept(f)
    ensures SameFrom(q, ordered, k + 1, f, Invoke(hash, f, OperationOf(q, ordered[k]), call, budget).files)
  {
    var op := OperationOf(q, ordered[k]);
    InvokeExtends(hash, f, op, call, budget);
    forall i | k + 1 <= i < |ordered| && Decided(q, ordered, i)
      ensures SameFor(f, Invoke(hash, f, op, call, budget).files, Key(OperationOf(q, ordered[i])))
    {
      InvokeTouchesOwn(hash, f, op, call, budget, Key(OperationOf(q, ordered[i])));
    }
  }

  lemma {:induction false} DecidedRoundOutlook(hash: OpHash, q: Inputs, ordered: seq<Observation>, k: nat, f: ReplayFiles, c: Checkpoint,
                            call: Call, budget: nat)
    requires DistinctIds(ordered) && DistinctKeys(ordered, q) && k < |ordered| && |c.processed| == k
    requires OnFile(hash, ordered, q, f, c) && budget >= WritesNeeded(q, ordered, k, f.files)
    requires Decided(q, ordered, k)
    ensures
      var item := ItemRun(hash, q, ordered[k], f, c, call, budget);
      && (item.ending.None? <==> CanComplete(hash, f.files, OperationOf(q, ordered[k]), call))
      && (item.ending.Some? ==> item.ending.value.ReplayFailed?)
      && (item.ending.None? ==>
            |item.checkpoint.processed| == k + 1 && item.left >= WritesNeeded(q, ordered, k + 1, item.files.files)
            && (AllCanComplete(hash, q, ordered, k + 1, item.files.files, call)
                <==> AllCanComplete(hash, q, ordered, k + 1, f.files, call)))
  {
    var op := OperationOf(q, ordered[k]);
    IdAt(ordered, k, k);
    CompletesExactly(hash, f.files, op, call, budget);
    var run := Invoke(hash, f.files, op, call, budget);
    if run.ending.Done? {
      WritesSpent(hash, f.files, op, call, budget);
      OthersAreUntouched(hash, q, ordered, k, f.files, call, budget);
      OutlooksAreLocal(hash, q, ordered, k + 1, f.files, run.files, call);
    }
  }

  lemma {:induction false} LoopCompletesExactly(hash: OpHash, q: Inputs, ordered: seq<Observation>, k: nat,
                                                f: ReplayFiles, c: Checkpoint, call: Call, budget: nat)
    requires DistinctIds(ordered) && DistinctKeys(ordered, q) && |c.processed| == k <= |ordered|
    requires OnFile(hash, ordered, q, f, c) && budget >= WritesNeeded(q, ordered, k, f.files)
    ensures Loop(hash, q, ordered, k, f, c, call, budget).ending.ReplayDone?
      <==> AllCanComplete(hash, q, ordered, k, f.files, call)
    decreases |ordered| - k
  {
    if k < |ordered| {
      var item := ItemRun(hash, q, ordered[k], f, c, call, budget);
      ItemKeepsProgress(hash, q, ordered, k, f, c, call, budget);
      AllFrom(hash, q, ordered, k, f.files, call);
      if Decided(q, ordered, k) {
        DecidedRoundOutlook(hash, q, ordered, k, f, c, call, budget);
      } else {
        IdAt(ordered, k, k);
      }
      if item.ending.None? {
        LoopCompletesExactly(hash, q, ordered, k + 1, item.files, item.checkpoint, call, item.left);
      }
    }
  }

  /** With distinct decision ids, an attempt that is not stopped completes exactly when every outstanding
      operation can complete on its own. */
  lemma {:induction false} AttemptCompletesExactly(hash: OpHash, observations: seq<Observation>, q: Inputs, f: ReplayFiles, call: Call, budget: nat)
    requires DistinctIds(observations) && AllWellFormed(observations)
    requires
      var ordered := OrderedObservations(observations);
      && Progress(hash, ordered, q, f) && DistinctKeys(ordered, q)
      && var done := if f.checkpoint.Some? then |f.checkpoint.value.processed| else 0;
      budget >= 1 + WritesNeeded(q, ordered, done, f.files)
    ensures
      var ordered := OrderedObservations(observations);
      var done := if f.checkpoint.Some? then |f.checkpoint.value.processed| else 0;
      RunReplay(hash, observations, q, f, call, budget).ending.ReplayDone?
      <==> AllCanComplete(hash, q, ordered, done, f.files, call)
  {
    var ordered := OrderedObservations(observations);
    SortedPermutes(observations, ObservationLe);
    ChecksPermute(observations, ordered);
    if f.checkpoint.Some? {
      var c := f.checkpoint.value;
      LoopSkips(hash, q, ordered, 0, |c.processed|, f, c, call, budget);
      LoopCompletesExactly(hash, q, ordered, |c.processed|, f, c, call, budget);
    } else {
      var c := FreshCheckpoint(ordered);
      assert ordered[..0] == [];
      LoopCompletesExactly(hash, q, ordered, 0, Saved(f, c), c, call, budget - 1);
    }
  }

  // ------------------------------------------------------------------ the engine on its files

  /** ReplayEngine over its checkpoint file and the lifecycle's files. */
  class ReplayEngine {
    var checkpoint: Option<Checkpoint>
    var files: Files
    var budget: nat

    function Current(): ReplayFiles reads this { ReplayFiles(checkpoint, files) }

    constructor (f: ReplayFiles, budget: nat)
      ensures Current() == f && this.budget == budget
    {
      checkpoint, files := f.checkpoint, f.files;
      this.budget := budget;
    }

    /** One round of the loop; c is the checkpoint in memory. */
    method Round(hash: OpHash, q: Inputs, o: Observation, c: Checkpoint, call: Call)
      returns (next: Checkpoint, ending: Option<ReplayEnding>)
      requires WellKept(files)
      modifies this
      ensures ItemRun(hash, q, o, old(Current()), c, call, old(budget)) == Item(Current(), next, ending, budget)
    {
      next, ending := c, None;
      if o.observationId in c.processed { return; }
      var path := None;
      if o.observationId in q.decisions {
        var run := Invoke(hash, files, OperationOf(q, o), call, budget);
        files, budget := run.files, run.left;
        match run.ending {
          case Stopped => ending := Some(ReplayStopped); budget := 0; return;
          case Failed(fault) => ending := Some(ReplayFailed(LifecycleFault(fault))); return;
          case Done(receipt) => path := Some(ReceiptPath(receipt.request.requestId));
        }
      }
      if budget == 0 { ending := Some(ReplayStopped); return; }
      next := Processed(c, o.observationId, path);
      checkpoint, budget := Some(next), budget - 1;
    }

    method Run(hash: OpHash, observations: seq<Observation>, q: Inputs, call: Call) returns (ending: ReplayEnding)
      requires WellKept(files)
      modifies this
      ensures RunReplay(hash, observations, q, old(Current()), call, old(budget)) == Attempt(Current(), ending, budget)
    {
      if !DistinctIds(observations) { return ReplayFailed(DuplicateObservation); }
      if !AllWellFormed(observations) { return ReplayFailed(InvalidReplayObservation); }
      var ordered := OrderedObservations(observations);
      var c := FreshCheckpoint(ordered);
      if checkpoint.Some? {
        c := checkpoint.value;
        if c.orderedIds != Ids(ordered) { return ReplayFailed(LineageChanged); }
      } else {
        if budget == 0 { return ReplayStopped; }
        checkpoint, budget := Some(c), budget - 1;
      }
      ghost var whole := Loop(hash, q, ordered, 0, Current(), c, call, budget);
      var k := 0;
      while k < |ordered|
        invariant 0 <= k <= |ordered| && WellKept(files)
        invariant whole == Loop(hash, q, ordered, k, Current(), c, call, budget)
      {
        var next, ended := Round(hash, q, ordered[k], c, call);
        if ended.Some? { return ended.value; }
        c, k := next, k + 1;
      }
      if budget == 0 { return ReplayStopped; }
      c := c.(complete := true);
      checkpoint, budget := Some(c), budget - 1;
      ending := ReplayDone(c);
    }
  }
}

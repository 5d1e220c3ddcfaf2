/** assemble_and_record of assembly/service.py: the durable writes of one assembly, a stop after any
    of them, and the retry. Both journals keep a summary file beside their lines; the prediction
    journal counts as valid only when the summary describes its lines. */
module AssemblyService {
  import opened Prelude
  import opened Evidence
  import opened CompetenceProfiles
  import opened Assembly
  import opened Lineage
  import opened AssemblyAgreement

  datatype Summary<+T> = Summary(count: nat, last: Option<T>)

  function Describe<T>(lines: seq<T>): Summary<T> {
    Summary(|lines|, if lines == [] then None else Some(lines[|lines| - 1]))
  }

  datatype Ledger = Ledger(
    predictions: seq<JournalEntry>, summary: Option<Summary<JournalEntry>>,
    receipts: seq<Receipt>, receiptSummary: Option<Summary<Receipt>>)

  /** What does not change while an assembly is recorded. */
  datatype Request = Request(
    outcomes: seq<Outcome>, events: seq<ModelEvent>, fullKernel: bool,
    frame: Frame, components: seq<Prediction>, assemblyAt: int)

  function WorldOf(l: Ledger, q: Request): World { World(l.predictions, q.outcomes, q.events) }

  /** The part of validate_prediction_journal that concerns the summary file. */
  predicate Sound(l: Ledger, fullKernel: bool) {
    if l.summary.None? then !fullKernel else l.summary.value == Describe(l.predictions)
  }

  /** PredictionJournal.rebuild_state. */
  function Rebuilt(l: Ledger): Ledger { l.(summary := Some(Describe(l.predictions))) }

  function Prepare(hash: Hash, l: Ledger, q: Request): Result<(Prediction, Receipt), Fault> {
    if q.assemblyAt < 0 then Err(NegativeTime)
    else if q.components == [] then Err(NoComponents)
    else if !Sound(l, q.fullKernel) then Err(JournalInvalid)
    else Plan(hash, WorldOf(l, q), q.frame, q.components, q.assemblyAt)
  }

  // ------------------------------------------------------------------ the durable writes

  /** PredictionJournal.append: a line, then the summary; nothing when the line is there already. */
  function PredictionWrites(l: Ledger, p: Prediction, journaledAt: int): Result<seq<Ledger>, Fault> {
    match Append(l.predictions, p, journaledAt)
    case Err(f) => Err(f)
    case Ok(after) =>
      if after == l.predictions then Ok([])
      else Ok([l.(predictions := after), l.(predictions := after, summary := Some(Describe(after)))])
  }

  function FindReceipt(receipts: seq<Receipt>, assembledId: string): (found: Option<Receipt>)
    ensures found.Some? ==> found.value in receipts && found.value.assembledId == assembledId
  {
    if receipts == [] then None
    else if receipts[0].assembledId == assembledId then Some(receipts[0])
    else FindReceipt(receipts[1..], assembledId)
  }

  /** AssemblyJournal.append: a line, then the summary; only the summary when the receipt is there already. */
  function ReceiptWrites(l: Ledger, r: Receipt): Result<seq<Ledger>, Fault> {
    var existing := FindReceipt(l.receipts, r.assembledId);
    if existing.None? then
      var after := l.receipts + [r];
      Ok([l.(receipts := after), l.(receipts := after, receiptSummary := Some(Describe(after)))])
    else if existing.value != r then Err(ReceiptConflict)
    else Ok([l.(receiptSummary := Some(Describe(l.receipts)))])
  }

  function Final(l: Ledger, states: seq<Ledger>): Ledger {
    if states == [] then l else states[|states| - 1]
  }

  datatype Run = Run(states: seq<Ledger>, result: Result<(Prediction, Receipt), Fault>)

  /** The lineage check, as a function of the journal it reads. */
  type LineageCheck = (seq<JournalEntry>, Receipt) -> bool

  function CheckOf(hash: Hash, q: Request): LineageCheck {
    (journal, r) => LineageErrors(hash, World(journal, q.outcomes, q.events), r) == []
  }

  function Finish(l: Ledger, writes: seq<Ledger>, p: Prediction, r: Receipt, check: LineageCheck): Run {
    var journaled := Final(l, writes);
    if !check(journaled.predictions, r) then Run(writes, Err(LineageInvalid))
    else match ReceiptWrites(journaled, r)
      case Err(f) => Run(writes, Err(f))
      case Ok(more) => Run(writes + more, Ok((p, r)))
  }

  function Perform(l: Ledger, prepared: Result<(Prediction, Receipt), Fault>, assemblyAt: int, check: LineageCheck): Run {
    match prepared
    case Err(f) => Run([], Err(f))
    case Ok(plan) =>
      match PredictionWrites(l, plan.0, assemblyAt)
      case Err(f) => Run([], Err(f))
      case Ok(writes) => Finish(l, writes, plan.0, plan.1, check)
  }

  /** The states that one uninterrupted call writes, one durable write at a time, and its result. */
  function RunOf(hash: Hash, l: Ledger, q: Request): Run {
    Perform(l, Prepare(hash, l, q), q.assemblyAt, CheckOf(hash, q))
  }

  function Completed(l: Ledger, run: Run): Ledger { Final(l, run.states) }

  /** What a stop after the first n writes leaves. */
  function StoppedAfter(l: Ledger, run: Run, n: nat): Ledger
    requires n <= |run.states|
  {
    Final(l, run.states[..n])
  }

  // ------------------------------------------------------------------ the retry

  /** The assembled prediction in the journal changes nothing about the plan. */
  lemma RetryPlansTheSame(hash: Hash, w: World, frame: Frame, components: seq<Prediction>, assemblyAt: int,
                          extra: seq<JournalEntry>)
    requires Plan(hash, w, frame, components, assemblyAt).Ok?
    requires UniqueIds(w.predictions + extra) && SeveralModels(extra)
    ensures Plan(hash, Recorded(w, extra), frame, components, assemblyAt) == Plan(hash, w, frame, components, assemblyAt)
  {
    DurabilityGrowth(w.predictions, extra, components, assemblyAt);
    ProfilesByRecorded(hash, w, extra, CompetenceCutoff(components));
  }

  /** The lineage check between the two appends never fails on valid journals. */
  lemma LineageCheckPasses(hash: Hash, w: World, frame: Frame, components: seq<Prediction>, assemblyAt: int,
                           after: seq<JournalEntry>, plan: (Prediction, Receipt), q: Request)
    requires ValidJournal(w.predictions) && w == World(w.predictions, q.outcomes, q.events)
    requires Plan(hash, w, frame, components, assemblyAt) == Ok(plan)
    requires Append(w.predictions, plan.0, assemblyAt) == Ok(after)
    ensures CheckOf(hash, q)(after, plan.1)
  {
    ProducerValidatorAgreement(hash, w, frame, components, assemblyAt);
    assert w.(predictions := after) == World(after, q.outcomes, q.events);
  }

  lemma {:induction false} FoundLast(receipts: seq<Receipt>, r: Receipt)
    requires FindReceipt(receipts, r.assembledId).None?
    ensures FindReceipt(receipts + [r], r.assembledId) == Some(r)
  {
    if receipts != [] {
      FoundLast(receipts[1..], r);
      assert (receipts + [r])[1..] == receipts[1..] + [r];
    }
  }

  /** Everything but the summary of the prediction journal, and that too unless there was none. */
  ghost predicate SameRecords(a: Ledger, b: Ledger, summarized: bool) {
    && a.predictions == b.predictions && a.receipts == b.receipts && a.receiptSummary == b.receiptSummary
    && (summarized ==> a.summary == b.summary)
  }

  /** After the receipt's line, its summary is all that is left to write. */
  lemma ReceiptRetry(l: Ledger, r: Receipt, n: nat)
    requires ReceiptWrites(l, r).Ok? && n <= |ReceiptWrites(l, r).value|
    ensures
      var s := Final(l, ReceiptWrites(l, r).value[..n]);
      && ReceiptWrites(s, r).Ok?
      && Final(s, ReceiptWrites(s, r).value) == Final(l, ReceiptWrites(l, r).value)
      && s.predictions == l.predictions && s.summary == l.summary
  {
    if FindReceipt(l.receipts, r.assembledId).None? {
      FoundLast(l.receipts, r);
    }
  }

  lemma FinishSplits(l: Ledger, writes: seq<Ledger>, p: Prediction, r: Receipt, check: LineageCheck)
    ensures
      var rest := Finish(Final(l, writes), [], p, r, check);
      Finish(l, writes, p, r, check) == Run(writes + rest.states, rest.result)
  {
    assert writes + [] == writes;
  }

  lemma FinishRetry(l: Ledger, p: Prediction, r: Receipt, check: LineageCheck, n: nat)
    requires n <= |Finish(l, [], p, r, check).states|
    ensures
      var run := Finish(l, [], p, r, check);
      var s := StoppedAfter(l, run, n);
      var again := Finish(s, [], p, r, check);
      && again.result == run.result && Completed(s, again) == Completed(l, run)
      && s.predictions == l.predictions && s.summary == l.summary
  {
    if check(l.predictions, r) && ReceiptWrites(l, r).Ok? {
      assert [] + ReceiptWrites(l, r).value == ReceiptWrites(l, r).value;
      ReceiptRetry(l, r, n);
    }
  }

  /** The summary of the prediction journal plays no part in what is left to do. */
  lemma FinishIgnoresSummary(l: Ledger, p: Prediction, r: Receipt, check: LineageCheck,
                             summary: Option<Summary<JournalEntry>>)
    ensures
      var run, other := Finish(l, [], p, r, check), Finish(l.(summary := summary), [], p, r, check);
      other.result == run.result && Completed(l.(summary := summary), other) == Completed(l, run).(summary := summary)
  {
  }

  /** The prediction is there: a second run starts with the lineage check. */
  lemma PerformAgain(s: Ledger, plan: (Prediction, Receipt), assemblyAt: int, check: LineageCheck)
    requires Append(s.predictions, plan.0, assemblyAt) == Ok(s.predictions)
    ensures Perform(s, Ok(plan), assemblyAt, check) == Finish(s, [], plan.0, plan.1, check)
  {
  }

  /** A stop right after the new journal line: the summary still describes the old lines. */
  lemma RetryAfterLine(l: Ledger, plan: (Prediction, Receipt), assemblyAt: int, check: LineageCheck)
    requires UniqueIds(l.predictions) && Append(l.predictions, plan.0, assemblyAt).Ok?
    requires Append(l.predictions, plan.0, assemblyAt).value != l.predictions
    ensures
      var run := Perform(l, Ok(plan), assemblyAt, check);
      && |run.states| >= 2
      && var s := StoppedAfter(l, run, 1);
      var again, repaired := Perform(s, Ok(plan), assemblyAt, check), Perform(Rebuilt(s), Ok(plan), assemblyAt, check);
      && s == l.(predictions := Append(l.predictions, plan.0, assemblyAt).value)
      && again.result == run.result == repaired.result
      && Completed(s, again) == Completed(l, run).(summary := l.summary)
      && Completed(Rebuilt(s), repaired) == Completed(l, run)
  {
    AppendKeepsJournal(l.predictions, plan.0, assemblyAt);
    var run := Perform(l, Ok(plan), assemblyAt, check);
    var writes := PredictionWrites(l, plan.0, assemblyAt).value;
    FinishSplits(l, writes, plan.0, plan.1, check);
    var s := l.(predictions := Append(l.predictions, plan.0, assemblyAt).value);
    assert run.states[..1] == [s];
    PerformAgain(s, plan, assemblyAt, check);
    PerformAgain(Rebuilt(s), plan, assemblyAt, check);
    assert Rebuilt(s) == Final(l, writes) && s == Rebuilt(s).(summary := l.summary);
    FinishIgnoresSummary(Rebuilt(s), plan.0, plan.1, check, l.summary);
    CompletedSplits(l, writes, Finish(Rebuilt(s), [], plan.0, plan.1, check));
  }

  lemma CompletedSplits(l: Ledger, writes: seq<Ledger>, rest: Run)
    ensures Completed(l, Run(writes + rest.states, rest.result)) == Completed(Final(l, writes), rest)
  {
  }

  /** A stop after the prediction and its summary, or anywhere when the prediction was there. */
  lemma RetryAfterPrediction(l: Ledger, plan: (Prediction, Receipt), assemblyAt: int, check: LineageCheck, n: nat)
    requires UniqueIds(l.predictions) && Append(l.predictions, plan.0, assemblyAt).Ok?
    requires |PredictionWrites(l, plan.0, assemblyAt).value| <= n <= |Perform(l, Ok(plan), assemblyAt, check).states|
    ensures
      var run := Perform(l, Ok(plan), assemblyAt, check);
      var s := StoppedAfter(l, run, n);
      var again := Perform(s, Ok(plan), assemblyAt, check);
      && s.predictions == Append(l.predictions, plan.0, assemblyAt).value
      && again.result == run.result && Completed(s, again) == Completed(l, run)
      && s.summary == (if s.predictions == l.predictions then l.summary else Some(Describe(s.predictions)))
  {
    AppendKeepsJournal(l.predictions, plan.0, assemblyAt);
    var run := Perform(l, Ok(plan), assemblyAt, check);
    var writes := PredictionWrites(l, plan.0, assemblyAt).value;
    var journaled := Final(l, writes);
    var rest := Finish(journaled, [], plan.0, plan.1, check);
    FinishSplits(l, writes, plan.0, plan.1, check);
    CompletedSplits(l, writes, rest);
    var k := n - |writes|;
    assert run.states[..n] == writes + rest.states[..k];
    CompletedSplits(l, writes, Run(rest.states[..k], rest.result));
    FinishRetry(journaled, plan.0, plan.1, check, k);
    PerformAgain(StoppedAfter(journaled, rest, k), plan, assemblyAt, check);
  }

  lemma RetryPrepares(hash: Hash, l: Ledger, s: Ledger, q: Request, plan: (Prediction, Receipt))
    requires ValidJournal(l.predictions) && Prepare(hash, l, q) == Ok(plan)
    requires Append(l.predictions, plan.0, q.assemblyAt) == Ok(s.predictions)
    ensures Prepare(hash, s, q) == if Sound(s, q.fullKernel) then Ok(plan) else Err(JournalInvalid)
  {
    RetryPlans(hash, WorldOf(l, q), q, plan, s.predictions);
  }

  lemma RetryPlans(hash: Hash, w: World, q: Request, plan: (Prediction, Receipt), after: seq<JournalEntry>)
    requires ValidJournal(w.predictions) && Plan(hash, w, q.frame, q.components, q.assemblyAt) == Ok(plan)
    requires Append(w.predictions, plan.0, q.assemblyAt) == Ok(after)
    ensures Plan(hash, w.(predictions := after), q.frame, q.components, q.assemblyAt) == Ok(plan)
  {
    PlanIsPlanned(hash, w, q.frame, q.components, q.assemblyAt);
    var extra := PlannedEntries(hash, w, q.frame, q.components, q.assemblyAt, plan.0, plan.1, after);
    RetryPlansTheSame(hash, w, q.frame, q.components, q.assemblyAt, extra);
  }

  lemma PlannedEntries(hash: Hash, w: World, frame: Frame, components: seq<Prediction>, assemblyAt: int,
                       assembled: Prediction, r: Receipt, after: seq<JournalEntry>)
    returns (extra: seq<JournalEntry>)
    requires ValidJournal(w.predictions) && Planned(hash, w, frame, components, assemblyAt, assembled, r)
    requires Append(w.predictions, assembled, assemblyAt) == Ok(after)
    ensures after == w.predictions + extra && UniqueIds(w.predictions + extra) && SeveralModels(extra)
    ensures w.(predictions := after) == Recorded(w, extra)
  {
    AssembledAgrees(hash, w, frame, components, assemblyAt, assembled, r);
    extra := AppendedEntries(w.predictions, assembled, assemblyAt);
  }

  /** Whether the journal of a stopped run still validates: it does not exactly when the stop came
      between the line of the assembled prediction and its summary. */
  lemma TornSummary(l: Ledger, s: Ledger, fullKernel: bool)
    requires Sound(l, fullKernel) && l.predictions <= s.predictions
    requires s.summary == l.summary || s.summary == Some(Describe(s.predictions))
    ensures Sound(s, fullKernel) <==>
      s.predictions == l.predictions || s.summary == Some(Describe(s.predictions)) || (l.summary.None? && !fullKernel)
  {
    if s.predictions != l.predictions {
      assert |s.predictions| > |l.predictions|;
    }
  }

  ghost predicate Recovers(l: Ledger, run: Run, s: Ledger, again: Run) {
    again.result == run.result && SameRecords(Completed(s, again), Completed(l, run), l.summary.Some?)
  }

  lemma StoppedRetry(l: Ledger, plan: (Prediction, Receipt), assemblyAt: int, check: LineageCheck, fullKernel: bool, n: nat)
    requires UniqueIds(l.predictions) && Sound(l, fullKernel)
    requires 1 <= n <= |Perform(l, Ok(plan), assemblyAt, check).states|
    ensures
      var run := Perform(l, Ok(plan), assemblyAt, check);
      var s := StoppedAfter(l, run, n);
      && Append(l.predictions, plan.0, assemblyAt) == Ok(s.predictions)
      && (Sound(s, fullKernel) ==> Recovers(l, run, s, Perform(s, Ok(plan), assemblyAt, check)))
      && (!Sound(s, fullKernel) ==> Recovers(l, run, Rebuilt(s), Perform(Rebuilt(s), Ok(plan), assemblyAt, check)))
      && (!Sound(s, fullKernel) <==>
            n == 1 && s.predictions != l.predictions && (l.summary.Some? || fullKernel))
  {
    var run := Perform(l, Ok(plan), assemblyAt, check);
    var s := StoppedAfter(l, run, n);
    AppendKeepsJournal(l.predictions, plan.0, assemblyAt);
    if n == 1 && Append(l.predictions, plan.0, assemblyAt).value != l.predictions {
      RetryAfterLine(l, plan, assemblyAt, check);
    } else {
      RetryAfterPrediction(l, plan, assemblyAt, check, n);
    }
    TornSummary(l, s, fullKernel);
  }

  /** A stop after any number of durable writes, then a retry: it completes as the uninterrupted call
      would have, exactly when the prediction journal still validates. Between the line of the
      assembled prediction and its summary it does not: every retry is refused until the summary is
      rebuilt, and then completes the same. */
  lemma RetryCompletes(hash: Hash, l: Ledger, q: Request, n: nat)
    requires ValidJournal(l.predictions) && n <= |RunOf(hash, l, q).states|
    ensures
      var run := RunOf(hash, l, q);
      var s := StoppedAfter(l, run, n);
      && (Sound(s, q.fullKernel) ==> Recovers(l, run, s, RunOf(hash, s, q)))
      && (n > 0 && !Sound(s, q.fullKernel) ==>
            RunOf(hash, s, q) == Run([], Err(JournalInvalid))
            && Recovers(l, run, Rebuilt(s), RunOf(hash, Rebuilt(s), q)))
      && (n > 0 ==> (!Sound(s, q.fullKernel) <==>
            n == 1 && s.predictions != l.predictions && (l.summary.Some? || q.fullKernel)))
  {
    if n > 0 {
      var plan := Prepare(hash, l, q).value;
      var s := StoppedAfter(l, RunOf(hash, l, q), n);
      StoppedRetry(l, plan, q.assemblyAt, CheckOf(hash, q), q.fullKernel, n);
      RetryPrepares(hash, l, s, q, plan);
      RetryPrepares(hash, l, Rebuilt(s), q, plan);
    }
  }

  // ------------------------------------------------------------------ a completed call

  lemma {:induction false} ReceiptsByAssembled(receipts: seq<Receipt>, id: string)
    ensures FindReceipt(receipts, id).None? <==> forall i :: 0 <= i < |receipts| ==> receipts[i].assembledId != id
  {
    if receipts != [] {
      ReceiptsByAssembled(receipts[1..], id);
      assert forall i :: 1 <= i < |receipts| ==> receipts[i] == receipts[1..][i - 1];
    }
  }

  /** On valid journals a call that can be planned succeeds unless its prediction id, or the assembled
      prediction's receipt, is already taken by other content; it leaves the prediction and one receipt,
      and the receipt validates. */
  lemma CompletedCall(hash: Hash, l: Ledger, q: Request)
    requires ValidJournal(l.predictions) && Prepare(hash, l, q).Ok?
    ensures
      var (p, r) := Prepare(hash, l, q).value;
      var run := RunOf(hash, l, q);
      var after := Completed(l, run);
      var taken := FindReceipt(l.receipts, r.assembledId);
      && (run.result.Ok? <==> Append(l.predictions, p, q.assemblyAt).Ok? && (taken.None? || taken.value == r))
      && (run.result.Ok? ==>
            run.result.value == (p, r)
            && Append(l.predictions, p, q.assemblyAt) == Ok(after.predictions)
            && after.receipts == (if taken.None? then l.receipts + [r] else l.receipts) && r in after.receipts
            && CheckOf(hash, q)(after.predictions, r))
  {
    var plan := Prepare(hash, l, q).value;
    if Append(l.predictions, plan.0, q.assemblyAt).Ok? {
      var after := Append(l.predictions, plan.0, q.assemblyAt).value;
      LineageCheckPasses(hash, WorldOf(l, q), q.frame, q.components, q.assemblyAt, after, plan, q);
      CompletedPerform(l, plan, q.assemblyAt, CheckOf(hash, q));
    }
  }

  lemma CompletedPerform(l: Ledger, plan: (Prediction, Receipt), assemblyAt: int, check: LineageCheck)
    requires Append(l.predictions, plan.0, assemblyAt).Ok?
    requires check(Append(l.predictions, plan.0, assemblyAt).value, plan.1)
    ensures
      var run := Perform(l, Ok(plan), assemblyAt, check);
      var after := Completed(l, run);
      var taken := FindReceipt(l.receipts, plan.1.assembledId);
      && after.predictions == Append(l.predictions, plan.0, assemblyAt).value
      && run.result == (if taken.None? || taken.value == plan.1 then Ok(plan) else Err(ReceiptConflict))
      && after.receipts == (if taken.None? then l.receipts + [plan.1] else l.receipts)
  {
    var writes := PredictionWrites(l, plan.0, assemblyAt).value;
    FinishSplits(l, writes, plan.0, plan.1, check);
    CompletedSplits(l, writes, Finish(Final(l, writes), [], plan.0, plan.1, check));
  }

  // ------------------------------------------------------------------ a retry after growth

  lemma {:induction false} FoundInFront(receipts: seq<Receipt>, extra: seq<Receipt>, id: string)
    ensures FindReceipt(receipts + extra, id)
         == if FindReceipt(receipts, id).Some? then FindReceipt(receipts, id) else FindReceipt(extra, id)
  {
    if receipts == [] {
      assert receipts + extra == extra;
    } else {
      assert (receipts + extra)[1..] == receipts[1..] + extra;
      FoundInFront(receipts[1..], extra, id);
    }
  }

  /** Until it is done a call leaves the receipts alone, or has added its own. */
  lemma StoppedReceipts(l: Ledger, plan: (Prediction, Receipt), assemblyAt: int, check: LineageCheck, n: nat)
    requires 1 <= n <= |Perform(l, Ok(plan), assemblyAt, check).states|
    ensures
      var s := StoppedAfter(l, Perform(l, Ok(plan), assemblyAt, check), n);
      s.receipts == l.receipts || (s.receipts == l.receipts + [plan.1] && FindReceipt(l.receipts, plan.1.assembledId).None?)
  {
    var writes := PredictionWrites(l, plan.0, assemblyAt).value;
    var run := Perform(l, Ok(plan), assemblyAt, check);
    assert StoppedAfter(l, run, n) == run.states[n - 1];
    assert Final(l, writes).receipts == l.receipts;
  }

  /** What may happen between a stop and the retry: predictions and outcomes past the competence cutoff,
      registry events past the assembly, receipts of other assemblies; and the prediction journal validates. */
  ghost predicate GrownSince(s: Ledger, later: Ledger, q: Request, after: Request, r: Receipt,
                             predictions: seq<JournalEntry>, outcomes: seq<Outcome>, events: seq<ModelEvent>,
                             receipts: seq<Receipt>)
  {
    && later.predictions == s.predictions + predictions && ValidJournal(later.predictions)
    && later.receipts == s.receipts + receipts && Sound(later, after.fullKernel)
    && after == q.(outcomes := q.outcomes + outcomes, events := q.events + events)
    && ArrivedAfter(predictions, outcomes, Cutoff(q.components))
    && (forall i :: 0 <= i < |events| ==> events[i].occurredAt > q.assemblyAt)
    && (forall x :: x in receipts ==> x.assembledId != r.assembledId)
  }

  lemma PlannedAfterGrowth(hash: Hash, s: Ledger, later: Ledger, q: Request, after: Request, plan: (Prediction, Receipt),
                           predictions: seq<JournalEntry>, outcomes: seq<Outcome>, events: seq<ModelEvent>, receipts: seq<Receipt>)
    requires GrownSince(s, later, q, after, plan.1, predictions, outcomes, events, receipts)
    requires Plan(hash, WorldOf(s, q), q.frame, q.components, q.assemblyAt) == Ok(plan)
    ensures Prepare(hash, later, after) == Ok(plan)
  {
    PlanIsStable(hash, WorldOf(s, q), predictions, outcomes, events, q.frame, q.components, q.assemblyAt);
    assert Grown(WorldOf(s, q), predictions, outcomes, events) == WorldOf(later, after);
  }

  lemma ReceiptStillFree(l: Ledger, s: Ledger, later: Ledger, r: Receipt, receipts: seq<Receipt>)
    requires s.receipts == l.receipts || (s.receipts == l.receipts + [r] && FindReceipt(l.receipts, r.assembledId).None?)
    requires later.receipts == s.receipts + receipts && forall x :: x in receipts ==> x.assembledId != r.assembledId
    requires var taken := FindReceipt(l.receipts, r.assembledId); taken.None? || taken.value == r
    ensures var taken := FindReceipt(later.receipts, r.assembledId); taken.None? || taken.value == r
  {
    FoundInFront(s.receipts, receipts, r.assembledId);
    ReceiptsByAssembled(receipts, r.assembledId);
    if s.receipts != l.receipts {
      FoundLast(l.receipts, r);
    }
  }

  /** A call that would have succeeded, stopped after any of its writes and retried once the journals have
      grown: it rebuilds the identical prediction and receipt, succeeds, and leaves both on file, validating
      against the journals as they are then. */
  lemma RetryAfterGrowth(hash: Hash, l: Ledger, q: Request, n: nat, later: Ledger, after: Request,
                         predictions: seq<JournalEntry>, outcomes: seq<Outcome>, events: seq<ModelEvent>, receipts: seq<Receipt>)
    requires ValidJournal(l.predictions) && RunOf(hash, l, q).result.Ok? && 1 <= n <= |RunOf(hash, l, q).states|
    requires GrownSince(StoppedAfter(l, RunOf(hash, l, q), n), later, q, after, RunOf(hash, l, q).result.value.1,
                        predictions, outcomes, events, receipts)
    ensures
      var run, again := RunOf(hash, l, q), RunOf(hash, later, after);
      var end := Completed(later, again);
      && again.result == run.result
      && end.predictions == later.predictions && Lookup(end.predictions, run.result.value.0.predictionId).Some?
      && Lookup(end.predictions, run.result.value.0.predictionId).value.prediction == run.result.value.0
      && run.result.value.1 in end.receipts
      && CheckOf(hash, after)(end.predictions, run.result.value.1)
  {
    var plan := Prepare(hash, l, q).value;
    var s := StoppedAfter(l, RunOf(hash, l, q), n);
    CompletedCall(hash, l, q);
    StoppedRetry(l, plan, q.assemblyAt, CheckOf(hash, q), q.fullKernel, n);
    RetryPlans(hash, WorldOf(l, q), q, plan, s.predictions);
    PlannedAfterGrowth(hash, s, later, q, after, plan, predictions, outcomes, events, receipts);
    StoppedReceipts(l, plan, q.assemblyAt, CheckOf(hash, q), n);
    ReceiptStillFree(l, s, later, plan.1, receipts);
    StillThere(l, s, plan.0, q.assemblyAt, later.predictions, predictions);
    CompletedCall(hash, later, after);
  }

  lemma {:induction false} StillThere(l: Ledger, s: Ledger, p: Prediction, at: int, later: seq<JournalEntry>, extra: seq<JournalEntry>)
    requires UniqueIds(l.predictions) && Append(l.predictions, p, at) == Ok(s.predictions)
    requires later == s.predictions + extra && UniqueIds(later)
    ensures Lookup(later, p.predictionId).Some? && Lookup(later, p.predictionId).value.prediction == p
    ensures Append(later, p, at) == Ok(later)
  {
    AppendKeepsJournal(l.predictions, p, at);
    LookupGrowth(s.predictions, extra, p.predictionId);
  }

  // ------------------------------------------------------------------ the service on its files

  /** A budget spent on two stages of writes, one after the other. */
  lemma StagedStop(l: Ledger, writes: seq<Ledger>, rest: Run, budget: nat)
    ensures
      var run := Run(writes + rest.states, rest.result);
      StoppedAfter(l, run, Min(budget, |run.states|))
      == if budget < |writes| then Final(l, writes[..budget])
         else StoppedAfter(Final(l, writes), rest, Min(budget - |writes|, |rest.states|))
  {
    if budget < |writes| {
      assert (writes + rest.states)[..budget] == writes[..budget];
    } else {
      var k := Min(budget - |writes|, |rest.states|);
      assert (writes + rest.states)[..|writes| + k] == writes + rest.states[..k];
    }
  }

  /** How a call that may write `run.states` ends under a budget. */
  ghost predicate Ends(l: Ledger, run: Run, budget: nat, now: Ledger, stopped: bool,
                       result: Result<(Prediction, Receipt), Fault>) {
    && (stopped <==> budget < |run.states|)
    && (!stopped ==> result == run.result)
    && now == StoppedAfter(l, run, Min(budget, |run.states|))
  }

  /** How an append of one journal ends under a budget. */
  ghost predicate Appended(l: Ledger, writes: Result<seq<Ledger>, Fault>, budget: nat, now: Ledger, left: nat,
                           fault: Option<Fault>, stopped: bool) {
    match writes
    case Err(f) => fault == Some(f) && !stopped && now == l && left == budget
    case Ok(states) =>
      && fault == None && (stopped <==> budget < |states|)
      && now == Final(l, states[..Min(budget, |states|)]) && left == budget - Min(budget, |states|)
  }

  lemma RefusedEnds(l: Ledger, p: Prediction, r: Receipt, assemblyAt: int, check: LineageCheck, budget: nat,
                    now: Ledger, left: nat, fault: Fault)
    requires Appended(l, PredictionWrites(l, p, assemblyAt), budget, now, left, Some(fault), false)
    ensures Ends(l, Perform(l, Ok((p, r)), assemblyAt, check), budget, now, false, Err(fault))
  {
  }

  lemma SplitEnds(l: Ledger, writes: seq<Ledger>, rest: Run, budget: nat, now: Ledger, left: nat,
                  result: Result<(Prediction, Receipt), Fault>)
    requires Appended(l, Ok(writes), budget, now, left, None, true)
    ensures Ends(l, Run(writes + rest.states, rest.result), budget, now, true, result)
  {
    StagedStop(l, writes, rest, budget);
  }

  lemma SplitGoesOn(l: Ledger, writes: seq<Ledger>, rest: Run, budget: nat, middle: Ledger, left: nat,
                    now: Ledger, stopped: bool, result: Result<(Prediction, Receipt), Fault>)
    requires Appended(l, Ok(writes), budget, middle, left, None, false)
    requires Ends(Final(l, writes), rest, left, now, stopped, result)
    ensures Ends(l, Run(writes + rest.states, rest.result), budget, now, stopped, result)
    ensures middle == Final(l, writes)
  {
    assert writes[..|writes|] == writes;
    StagedStop(l, writes, rest, budget);
  }

  lemma StoppedEnds(l: Ledger, p: Prediction, r: Receipt, assemblyAt: int, check: LineageCheck, budget: nat,
                    now: Ledger, left: nat, result: Result<(Prediction, Receipt), Fault>)
    requires Appended(l, PredictionWrites(l, p, assemblyAt), budget, now, left, None, true)
    ensures Ends(l, Perform(l, Ok((p, r)), assemblyAt, check), budget, now, true, result)
  {
    var writes := PredictionWrites(l, p, assemblyAt).value;
    FinishSplits(l, writes, p, r, check);
    SplitEnds(l, writes, Finish(Final(l, writes), [], p, r, check), budget, now, left, result);
  }

  lemma GoesOn(l: Ledger, p: Prediction, r: Receipt, assemblyAt: int, check: LineageCheck, budget: nat,
               middle: Ledger, left: nat, now: Ledger, stopped: bool, result: Result<(Prediction, Receipt), Fault>)
    requires Appended(l, PredictionWrites(l, p, assemblyAt), budget, middle, left, None, false)
    requires Ends(middle, Finish(middle, [], p, r, check), left, now, stopped, result)
    ensures Ends(l, Perform(l, Ok((p, r)), assemblyAt, check), budget, now, stopped, result)
  {
    var writes := PredictionWrites(l, p, assemblyAt).value;
    assert writes[..|writes|] == writes;
    FinishSplits(l, writes, p, r, check);
    SplitGoesOn(l, writes, Finish(middle, [], p, r, check), budget, middle, left, now, stopped, result);
  }

  /** The two journals and their summary files. Each durable write spends one unit of the budget; with
      none left the process stops. */
  class AssemblyStore {
    var predictions: seq<JournalEntry>
    var summary: Option<Summary<JournalEntry>>
    var receipts: seq<Receipt>
    var receiptSummary: Option<Summary<Receipt>>
    var budget: nat

    function Current(): Ledger reads this { Ledger(predictions, summary, receipts, receiptSummary) }

    constructor (l: Ledger, budget: nat)
      ensures Current() == l && this.budget == budget
    {
      predictions, summary, receipts, receiptSummary := l.predictions, l.summary, l.receipts, l.receiptSummary;
      this.budget := budget;
    }

    /** PredictionJournal.append, the line before the summary. */
    method AppendPrediction(p: Prediction, journaledAt: int) returns (fault: Option<Fault>, stopped: bool)
      modifies this
      ensures Appended(old(Current()), PredictionWrites(old(Current()), p, journaledAt), old(budget),
                       Current(), budget, fault, stopped)
    {
      fault, stopped := None, false;
      match Append(predictions, p, journaledAt) {
        case Err(f) => fault := Some(f);
        case Ok(after) =>
          if after == predictions { return; }
          if budget == 0 { stopped := true; return; }
          predictions, budget := after, budget - 1;
          if budget == 0 { stopped := true; return; }
          summary, budget := Some(Describe(predictions)), budget - 1;
      }
    }

    /** AssemblyJournal.append. */
    method AppendReceipt(r: Receipt) returns (fault: Option<Fault>, stopped: bool)
      modifies this
      ensures Appended(old(Current()), ReceiptWrites(old(Current()), r), old(budget), Current(), budget, fault, stopped)
    {
      fault, stopped := None, false;
      var existing := FindReceipt(receipts, r.assembledId);
      if existing.Some? && existing.value != r { return Some(ReceiptConflict), false; }
      if existing.None? {
        if budget == 0 { stopped := true; return; }
        receipts, budget := receipts + [r], budget - 1;
      }
      if budget == 0 { stopped := true; return; }
      receiptSummary, budget := Some(Describe(receipts)), budget - 1;
    }

    /** From the lineage check on. */
    method RecordReceipt(hash: Hash, q: Request, assembled: Prediction, receipt: Receipt)
      returns (result: Result<(Prediction, Receipt), Fault>, stopped: bool)
      modifies this
      ensures Ends(old(Current()), Finish(old(Current()), [], assembled, receipt, CheckOf(hash, q)), old(budget),
                   Current(), stopped, result)
    {
      result, stopped := Ok((assembled, receipt)), false;
      var errors := ValidateReceiptLineage(hash, World(predictions, q.outcomes, q.events), receipt);
      ghost var check := CheckOf(hash, q);
      assert check(predictions, receipt) <==> errors == [];
      if errors != [] { return Err(LineageInvalid), false; }
      ghost var start := Current();
      assert forall writes: seq<Ledger> :: [] + writes == writes;
      var fault;
      fault, stopped := AppendReceipt(receipt);
      if fault.Some? { result := Err(fault.value); }
    }

    /** Both appends of one plan. */
    method RecordPlan(hash: Hash, q: Request, assembled: Prediction, receipt: Receipt)
      returns (result: Result<(Prediction, Receipt), Fault>, stopped: bool)
      modifies this
      ensures Ends(old(Current()), Perform(old(Current()), Ok((assembled, receipt)), q.assemblyAt, CheckOf(hash, q)),
                   old(budget), Current(), stopped, result)
    {
      ghost var start, was, check := Current(), budget, CheckOf(hash, q);
      var fault;
      fault, stopped := AppendPrediction(assembled, q.assemblyAt);
      result := Err(JournalInvalid);
      if fault.Some? {
        result := Err(fault.value);
        RefusedEnds(start, assembled, receipt, q.assemblyAt, check, was, Current(), budget, fault.value);
      } else if stopped {
        StoppedEnds(start, assembled, receipt, q.assemblyAt, check, was, Current(), budget, result);
      } else {
        ghost var middle, left := Current(), budget;
        result, stopped := RecordReceipt(hash, q, assembled, receipt);
        GoesOn(start, assembled, receipt, q.assemblyAt, check, was, middle, left, Current(), stopped, result);
      }
    }

    /** assemble_and_record: the call ends after as many of its durable writes as the budget allows. */
    method AssembleAndRecord(hash: Hash, q: Request)
      returns (result: Result<(Prediction, Receipt), Fault>, stopped: bool)
      modifies this
      ensures Ends(old(Current()), RunOf(hash, old(Current()), q), old(budget), Current(), stopped, result)
    {
      var prepared := Prepare(hash, Current(), q);
      if prepared.Err? {
        result, stopped := Err(prepared.error), false;
      } else {
        var (assembled, receipt) := prepared.value;
        result, stopped := RecordPlan(hash, q, assembled, receipt);
      }
    }
  }
}

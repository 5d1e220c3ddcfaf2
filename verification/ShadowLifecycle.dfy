/** The staged shadow lifecycle of shadow_lifecycle.py over its durable files, with the receipt store
    of operations.py. One durable write is one step; a process may stop between any two. */
module ShadowLifecycle {
  import opened Prelude
  import opened Execution

  datatype Stage = PREPARED | AUTHORIZED | EXECUTED | ACCOUNTED | FINALIZED

  function Rank(s: Stage): nat {
    match s
    case PREPARED => 0
    case AUTHORIZED => 1
    case EXECUTED => 2
    case ACCOUNTED => 3
    case FINALIZED => 4
  }

  /** What one operation is about; fixed across retries. */
  datatype Operation = Operation(decision: TypedDecision, observation: Observation, assumptions: Assumptions)

  datatype OpJournal = OpJournal(
    stage: Stage, inputHash: string, authorization: Option<Authorization>, result: Option<ExecutionResult>,
    accounting: Option<Accounting>, receiptKey: Option<string>)

  datatype ExecutionReceipt = ExecutionReceipt(
    request: ExecutionRequest, requestHash: string, decision: Option<TypedDecision>,
    observationHash: string, authorization: Authorization, result: ExecutionResult,
    accounting: Accounting, contentHash: string)

  datatype Files = Files(journals: map<string, OpJournal>, receipts: map<string, ExecutionReceipt>)

  /** What canonical_hash is applied to here. */
  datatype Material =
    | InputMaterial(decision: TypedDecision, observationHash: string, assumptions: Assumptions)
    | ObservationMaterial(instrument: string, quality: Quality, close: real, sourceEventAt: int, intervalSeconds: int)
    | RequestMaterial(request: ExecutionRequest)
    | ContentMaterial(request: ExecutionRequest, authorization: Authorization, result: ExecutionResult,
                      accounting: Accounting)

  type OpHash = Material -> string

  type Adapter = (ExecutionRequest, Observation, Assumptions, string) -> Result<ExecutionResult, Fault>

  /** What may differ between one invocation and the next. */
  datatype Call = Call(capability: Capability, governor: Governor, adapter: Adapter, processedAt: string)

  function RequestOf(op: Operation): ExecutionRequest {
    var d := op.decision;
    ExecutionRequest("REQ-" + d.decisionId, "IDEMP-" + d.decisionId, d.capabilityId, d.decisionId, d.observationId,
                     SHADOW_MODE, op.observation.instrument, d.action, d.orderType, d.quantity, d.limitPrice,
                     d.decidedAt, true)
  }

  function Key(op: Operation): string { "REQ-" + op.decision.decisionId }

  function InputOf(op: Operation): Material {
    InputMaterial(op.decision, op.observation.contentHash, op.assumptions)
  }

  function InputHash(hash: OpHash, op: Operation): string { hash(InputOf(op)) }

  function ContentOf(o: Observation): Material {
    ObservationMaterial(o.instrument, o.quality, o.close, o.sourceEventAt, o.intervalSeconds)
  }

  /** The hash tells the inputs and the observations of the given operations apart. */
  ghost predicate OpApart(hash: OpHash, ops: set<Operation>) {
    forall a, b :: a in ops && b in ops ==>
      && (hash(InputOf(a)) == hash(InputOf(b)) ==> InputOf(a) == InputOf(b))
      && (hash(ContentOf(a.observation)) == hash(ContentOf(b.observation)) ==>
            ContentOf(a.observation) == ContentOf(b.observation))
  }

  function DecisionFault(d: TypedDecision): Option<Fault> {
    if !d.action.BUY? && !d.action.SELL? then Some(HoldOrUnknownAction)
    else if d.quantity <= 0.0 then Some(NonPositiveQuantity)
    else if Blank(d.decisionId) || Blank(d.capabilityId) || Blank(d.observationId) || Blank(d.decidedAt) || Blank(d.rationale)
    then Some(LineageFieldMissing)
    else None
  }

  function OperationFault(op: Operation): Option<Fault> {
    var f := DecisionFault(op.decision);
    if f.Some? then f
    else if op.decision.observationId != op.observation.observationId then Some(ObservationMismatch)
    else if !op.observation.quality.VALID? then Some(NotActionable)
    else None
  }

  predicate SafeChar(c: char) {
    'a' <= c <= 'z' || 'A' <= c <= 'Z' || '0' <= c <= '9' || c == '-' || c == '_'
  }

  predicate FileSafe(s: string) {
    s != "" && forall i :: 0 <= i < |s| ==> SafeChar(s[i])
  }

  function ReceiptFor(hash: OpHash, op: Operation, a: Authorization, r: ExecutionResult, c: Accounting): ExecutionReceipt {
    var q := RequestOf(op);
    ExecutionReceipt(q, hash(RequestMaterial(q)), Some(op.decision), op.observation.contentHash, a, r, c,
                     hash(ContentMaterial(q, a, r, c)))
  }

  /** ReceiptStore.persist: an existing receipt of the same request is returned, never rewritten. */
  function Persist(receipts: map<string, ExecutionReceipt>, receipt: ExecutionReceipt)
    : Result<map<string, ExecutionReceipt>, Fault>
  {
    var id := receipt.request.requestId;
    if !FileSafe(id) then Err(UnsafeRequestId)
    else if id in receipts then
      if receipts[id].requestHash != receipt.requestHash then Err(ReceiptConflict) else Ok(receipts)
    else Ok(receipts[id := receipt])
  }

  // ------------------------------------------------------------------ one step

  datatype Outcome = Wrote(files: Files) | Returned(receipt: ExecutionReceipt) | Raised(fault: Fault)

  function NewJournal(hash: OpHash, op: Operation): OpJournal {
    OpJournal(PREPARED, InputHash(hash, op), None, None, None, None)
  }

  function WithJournal(f: Files, key: string, j: OpJournal): Files { f.(journals := f.journals[key := j]) }

  /** What each stage has stored. */
  predicate Stored(j: OpJournal) {
    && (j.authorization.Some? <==> Rank(j.stage) >= 1)
    && (j.result.Some? <==> Rank(j.stage) >= 2)
    && (j.accounting.Some? <==> Rank(j.stage) >= 3)
    && (j.receiptKey.Some? <==> Rank(j.stage) >= 4)
    && (Rank(j.stage) >= 2 ==> j.authorization.value.allowed)
  }

  function FinishStep(hash: OpHash, f: Files, op: Operation, j: OpJournal): Outcome
    requires Stored(j) && j.stage.ACCOUNTED?
  {
    var receipt := ReceiptFor(hash, op, j.authorization.value, j.result.value, j.accounting.value);
    match Persist(f.receipts, receipt)
    case Err(fault) => Raised(fault)
    case Ok(receipts) =>
      if receipts != f.receipts then Wrote(f.(receipts := receipts))
      else Wrote(WithJournal(f, Key(op), j.(stage := FINALIZED, receiptKey := Some(Key(op)))))
  }

  function StageStep(hash: OpHash, f: Files, op: Operation, j: OpJournal, call: Call): Outcome {
    if !Stored(j) then Raised(CorruptJournal)
    else if j.stage.PREPARED? then
      match Authorize(RequestOf(op), call.capability, call.governor, call.processedAt)
      case Err(fault) => Raised(fault)
      case Ok(a) => Wrote(WithJournal(f, Key(op), j.(stage := AUTHORIZED, authorization := Some(a))))
    else if !j.authorization.value.allowed then Raised(Denied(j.authorization.value.reasons))
    else match j.stage
      case AUTHORIZED =>
        (match call.adapter(RequestOf(op), op.observation, op.assumptions, call.processedAt)
         case Err(fault) => Raised(fault)
         case Ok(r) => Wrote(WithJournal(f, Key(op), j.(stage := EXECUTED, result := Some(r)))))
      case EXECUTED =>
        var c := BuildAccounting(RequestOf(op), j.result.value, op.observation.close, call.processedAt);
        Wrote(WithJournal(f, Key(op), j.(stage := ACCOUNTED, accounting := Some(c))))
      case ACCOUNTED => FinishStep(hash, f, op, j)
      case FINALIZED =>
        if j.receiptKey.value in f.receipts then Returned(f.receipts[j.receiptKey.value]) else Raised(ReceiptMissing)
  }

  predicate WellKept(f: Files) {
    forall k :: k in f.journals ==> Stored(f.journals[k])
  }

  /** One durable write of ShadowLifecycle.run, or its end. */
  function Step(hash: OpHash, f: Files, op: Operation, call: Call): Outcome {
    var fault := OperationFault(op);
    if fault.Some? then Raised(fault.value)
    else if Key(op) !in f.journals then Wrote(WithJournal(f, Key(op), NewJournal(hash, op)))
    else if f.journals[Key(op)].inputHash != InputHash(hash, op) then Raised(IdempotencyConflict)
    else StageStep(hash, f, op, f.journals[Key(op)], call)
  }

  // ------------------------------------------------------------------ what a step keeps

  ghost predicate JournalExtends(a: OpJournal, b: OpJournal) {
    && a.inputHash == b.inputHash && Rank(a.stage) <= Rank(b.stage)
    && (a.authorization.Some? ==> b.authorization == a.authorization)
    && (a.result.Some? ==> b.result == a.result)
    && (a.accounting.Some? ==> b.accounting == a.accounting)
    && (a.receiptKey.Some? ==> b.receiptKey == a.receiptKey)
  }

  /** Stages only advance, what is stored never changes, receipts are immutable. */
  ghost predicate Extends(a: Files, b: Files) {
    && (forall k :: k in a.journals ==> k in b.journals && JournalExtends(a.journals[k], b.journals[k]))
    && (forall k :: k in a.receipts ==> k in b.receipts && b.receipts[k] == a.receipts[k])
  }

  /** A step of a stage either rewrites the operation's journal, one stage further, or adds its receipt. */
  lemma StageStepShape(hash: OpHash, f: Files, op: Operation, j: OpJournal, call: Call)
    requires Stored(j) && Key(op) in f.journals && f.journals[Key(op)] == j
    requires StageStep(hash, f, op, j, call).Wrote?
    ensures
      var after := StageStep(hash, f, op, j, call).files;
      || (after.journals == f.journals && Key(op) !in f.receipts && j.stage.ACCOUNTED?
          && after.receipts == f.receipts[Key(op) :=
               ReceiptFor(hash, op, j.authorization.value, j.result.value, j.accounting.value)])
      || (Key(op) in after.journals
          && var next := after.journals[Key(op)];
          after == WithJournal(f, Key(op), next) && Stored(next) && JournalExtends(j, next)
          && Rank(next.stage) == Rank(j.stage) + 1
          && (next.stage.FINALIZED? ==> Key(op) in f.receipts && next.receiptKey == Some(Key(op))))
  {
  }

  lemma JournalWriteExtends(f: Files, key: string, next: OpJournal)
    requires WellKept(f) && Stored(next) && (key in f.journals ==> JournalExtends(f.journals[key], next))
    ensures WellKept(WithJournal(f, key, next)) && Extends(f, WithJournal(f, key, next))
  {
  }

  ghost predicate Untouched(a: Files, b: Files, key: string) {
    forall k :: k != key ==>
      && (k in a.journals <==> k in b.journals) && (k in a.journals ==> b.journals[k] == a.journals[k])
      && (k in a.receipts <==> k in b.receipts)
  }

  lemma StepExtends(hash: OpHash, f: Files, op: Operation, call: Call)
    requires WellKept(f) && Step(hash, f, op, call).Wrote?
    ensures
      var after := Step(hash, f, op, call).files;
      WellKept(after) && Extends(f, after) && Untouched(f, after, Key(op))
  {
    if Key(op) in f.journals {
      StageStepShape(hash, f, op, f.journals[Key(op)], call);
      var after := Step(hash, f, op, call).files;
      if after.journals != f.journals {
        JournalWriteExtends(f, Key(op), after.journals[Key(op)]);
      }
    } else {
      JournalWriteExtends(f, Key(op), NewJournal(hash, op));
    }
  }

  // ------------------------------------------------------------------ invocations and histories

  datatype Ending = Stopped | Done(receipt: ExecutionReceipt) | Failed(fault: Fault)

  datatype Invocation = Invocation(files: Files, ending: Ending, left: nat)

  /** Steps until the end or until the budget of durable writes is spent. */
  function Iterate(step: Files -> Outcome, f: Files, budget: nat): Invocation
    decreases budget
  {
    match step(f)
    case Returned(receipt) => Invocation(f, Done(receipt), budget)
    case Raised(fault) => Invocation(f, Failed(fault), budget)
    case Wrote(after) => if budget == 0 then Invocation(f, Stopped, 0) else Iterate(step, after, budget - 1)
  }

  lemma {:induction false} IterateResumes(step: Files -> Outcome, f: Files, first: nat, second: nat)
    requires Iterate(step, f, first).ending.Stopped?
    ensures Iterate(step, Iterate(step, f, first).files, second) == Iterate(step, f, first + second)
    decreases first
  {
    if first > 0 {
      IterateResumes(step, step(f).files, first - 1, second);
    }
  }

  lemma {:induction false} IterateNeedsNoMore(step: Files -> Outcome, f: Files, budget: nat, more: nat)
    requires !Iterate(step, f, budget).ending.Stopped?
    ensures
      var run := Iterate(step, f, budget);
      && Iterate(step, f, budget + more) == Invocation(run.files, run.ending, run.left + more)
      && Iterate(step, run.files, more) == Invocation(run.files, run.ending, more)
    decreases budget
  {
    if step(f).Wrote? {
      IterateNeedsNoMore(step, step(f).files, budget - 1, more);
    }
  }

  function StepOf(hash: OpHash, op: Operation, call: Call): Files -> Outcome { g => Step(hash, g, op, call) }

  lemma {:induction false} IterateWellKept(hash: OpHash, f: Files, op: Operation, call: Call, budget: nat)
    requires WellKept(f)
    ensures WellKept(Iterate(StepOf(hash, op, call), f, budget).files)
    decreases budget
  {
    if StepOf(hash, op, call)(f).Wrote? && budget > 0 {
      StepExtends(hash, f, op, call);
      IterateWellKept(hash, StepOf(hash, op, call)(f).files, op, call, budget - 1);
    }
  }

  /** One call of run that may perform as many durable writes as the budget allows. */
  function Invoke(hash: OpHash, f: Files, op: Operation, call: Call, budget: nat): (r: Invocation)
    requires WellKept(f)
    ensures WellKept(r.files)
  {
    IterateWellKept(hash, f, op, call, budget);
    Iterate(StepOf(hash, op, call), f, budget)
  }

  lemma ExtendsTransitive(a: Files, b: Files, c: Files)
    requires Extends(a, b) && Extends(b, c)
    ensures Extends(a, c)
  {
  }

  lemma StepThenExtends(hash: OpHash, f: Files, op: Operation, call: Call, last: Files)
    requires WellKept(f) && Step(hash, f, op, call).Wrote? && Extends(Step(hash, f, op, call).files, last)
    ensures Extends(f, last)
  {
    StepExtends(hash, f, op, call);
    ExtendsTransitive(f, Step(hash, f, op, call).files, last);
  }

  lemma StepKeepsWell(hash: OpHash, f: Files, op: Operation, call: Call)
    requires WellKept(f) && Step(hash, f, op, call).Wrote?
    ensures WellKept(Step(hash, f, op, call).files)
  {
    StepExtends(hash, f, op, call);
  }

  lemma {:induction false} InvokeExtends(hash: OpHash, f: Files, op: Operation, call: Call, budget: nat)
    requires WellKept(f)
    ensures Extends(f, Invoke(hash, f, op, call, budget).files)
    decreases budget
  {
    var step := Step(hash, f, op, call);
    if step.Wrote? && budget > 0 {
      StepKeepsWell(hash, f, op, call);
      InvokeExtends(hash, step.files, op, call, budget - 1);
      StepThenExtends(hash, f, op, call, Invoke(hash, step.files, op, call, budget - 1).files);
    }
  }

  ghost predicate SameAt(a: Files, b: Files, k: string) {
    && (k in a.journals <==> k in b.journals) && (k in a.journals ==> b.journals[k] == a.journals[k])
    && (k in a.receipts <==> k in b.receipts)
  }

  lemma StepTouchesOwn(hash: OpHash, f: Files, op: Operation, call: Call, k: string)
    requires WellKept(f) && k != Key(op) && Step(hash, f, op, call).Wrote?
    ensures WellKept(Step(hash, f, op, call).files) && SameAt(f, Step(hash, f, op, call).files, k)
  {
    StepExtends(hash, f, op, call);
  }

  /** A call leaves the files of every other operation alone. */
  lemma {:induction false} InvokeTouchesOwn(hash: OpHash, f: Files, op: Operation, call: Call, budget: nat, k: string)
    requires WellKept(f) && k != Key(op)
    ensures SameAt(f, Invoke(hash, f, op, call, budget).files, k)
    decreases budget
  {
    var step := Step(hash, f, op, call);
    if step.Wrote? && budget > 0 {
      StepTouchesOwn(hash, f, op, call, k);
      InvokeTouchesOwn(hash, step.files, op, call, budget - 1, k);
    }
  }

  /** A stopped call followed by one with the same inputs goes on where the first one left off: together
      they are the uninterrupted call. */
  lemma InvokeResumes(hash: OpHash, f: Files, op: Operation, call: Call, first: nat, second: nat)
    requires WellKept(f) && Invoke(hash, f, op, call, first).ending.Stopped?
    ensures Invoke(hash, Invoke(hash, f, op, call, first).files, op, call, second)
         == Invoke(hash, f, op, call, first + second)
  {
    IterateResumes(StepOf(hash, op, call), f, first, second);
  }

  /** One call in a history: any operation, any parameters, stopped anywhere. */
  datatype Entry = Entry(op: Operation, call: Call, budget: nat)

  function FilesAfter(hash: OpHash, f: Files, history: seq<Entry>): (after: Files)
    requires WellKept(f)
    ensures WellKept(after)
  {
    if history == [] then f
    else
      var e := history[|history| - 1];
      Invoke(hash, FilesAfter(hash, f, history[..|history| - 1]), e.op, e.call, e.budget).files
  }

  function EndingOf(hash: OpHash, f: Files, history: seq<Entry>, i: nat): Ending
    requires WellKept(f) && i < |history|
  {
    Invoke(hash, FilesAfter(hash, f, history[..i]), history[i].op, history[i].call, history[i].budget).ending
  }

  lemma {:induction false} HistoryExtends(hash: OpHash, f: Files, history: seq<Entry>, i: nat)
    requires WellKept(f) && i <= |history|
    ensures Extends(FilesAfter(hash, f, history[..i]), FilesAfter(hash, f, history))
    decreases |history|
  {
    if i == |history| {
      assert history[..i] == history;
    } else {
      var n, e := |history| - 1, history[|history| - 1];
      HistoryExtends(hash, f, history[..n], i);
      assert history[..n][..i] == history[..i];
      InvokeExtends(hash, FilesAfter(hash, f, history[..n]), e.op, e.call, e.budget);
      ExtendsTransitive(FilesAfter(hash, f, history[..i]), FilesAfter(hash, f, history[..n]), FilesAfter(hash, f, history));
    }
  }

  /** A call that returned left the operation finalized with that receipt on file. */
  ghost predicate Holds(f: Files, key: string, receipt: ExecutionReceipt) {
    && key in f.journals && f.journals[key].stage.FINALIZED? && f.journals[key].receiptKey.Some?
    && f.journals[key].receiptKey.value in f.receipts && f.receipts[f.journals[key].receiptKey.value] == receipt
  }

  lemma {:induction false} ReturnedIsHeld(hash: OpHash, f: Files, op: Operation, call: Call, budget: nat)
    requires WellKept(f) && Invoke(hash, f, op, call, budget).ending.Done?
    ensures
      var r := Invoke(hash, f, op, call, budget);
      Holds(r.files, Key(op), r.ending.receipt) && r.files.journals[Key(op)].inputHash == InputHash(hash, op)
    decreases budget
  {
    match Step(hash, f, op, call)
    case Wrote(after) =>
      StepExtends(hash, f, op, call);
      ReturnedIsHeld(hash, after, op, call, budget - 1);
    case _ =>
  }

  lemma HeldStays(a: Files, b: Files, key: string, receipt: ExecutionReceipt)
    requires Extends(a, b) && Holds(a, key, receipt)
    ensures Holds(b, key, receipt)
  {
  }

  /** What a call of the history returned is still held after any later part of the history. */
  lemma {:induction false} HeldAfter(hash: OpHash, f: Files, history: seq<Entry>, i: nat, n: nat)
    requires WellKept(f) && i < n <= |history| && EndingOf(hash, f, history, i).Done?
    ensures Holds(FilesAfter(hash, f, history[..n]), Key(history[i].op), EndingOf(hash, f, history, i).receipt)
  {
    var e := history[i];
    assert history[..i + 1][..i] == history[..i] && history[..n][..i + 1] == history[..i + 1];
    ReturnedIsHeld(hash, FilesAfter(hash, f, history[..i]), e.op, e.call, e.budget);
    HistoryExtends(hash, f, history[..n], i + 1);
    HeldStays(FilesAfter(hash, f, history[..i + 1]), FilesAfter(hash, f, history[..n]), Key(e.op),
              EndingOf(hash, f, history, i).receipt);
  }

  /** Whatever the history of stops, retries, parameters and other operations: all calls for one
      operation that return, return the same receipt, and the file still holds it. */
  lemma {:induction false} OneReceipt(hash: OpHash, f: Files, history: seq<Entry>, i: nat, j: nat)
    requires WellKept(f) && i <= j < |history| && Key(history[i].op) == Key(history[j].op)
    requires EndingOf(hash, f, history, i).Done? && EndingOf(hash, f, history, j).Done?
    ensures EndingOf(hash, f, history, i) == EndingOf(hash, f, history, j)
    ensures Holds(FilesAfter(hash, f, history), Key(history[i].op), EndingOf(hash, f, history, i).receipt)
  {
    HeldAfter(hash, f, history, i, |history|);
    HeldAfter(hash, f, history, j, |history|);
    assert history[..|history|] == history;
  }

  // ------------------------------------------------------------------ denial

  /** A journal that no call can advance: denied, or waiting for a receipt whose id is no file name. */
  predicate Stuck(key: string, j: OpJournal) {
    (j.authorization.Some? && !j.authorization.value.allowed) || (j.stage.ACCOUNTED? && !FileSafe(key))
  }

  lemma StuckFails(hash: OpHash, f: Files, op: Operation, call: Call, budget: nat)
    requires WellKept(f) && Key(op) in f.journals && Stuck(Key(op), f.journals[Key(op)])
    ensures Invoke(hash, f, op, call, budget).ending.Failed? && Invoke(hash, f, op, call, budget).files == f
  {
  }

  lemma {:induction false} StuckStays(hash: OpHash, f: Files, history: seq<Entry>, key: string)
    requires WellKept(f) && key in f.journals && Stuck(key, f.journals[key])
    ensures SameAt(f, FilesAfter(hash, f, history), key)
  {
    if history != [] {
      var n, e := |history| - 1, history[|history| - 1];
      StuckStays(hash, f, history[..n], key);
      var before := FilesAfter(hash, f, history[..n]);
      if Key(e.op) == key {
        StuckFails(hash, before, e.op, e.call, e.budget);
      } else {
        InvokeTouchesOwn(hash, before, e.op, e.call, e.budget, key);
      }
    }
  }

  /** A denied operation never gets a result, an accounting or a receipt: its journal stays
      authorized-and-denied for good, no receipt appears under its key, and no call for it ever returns. */
  lemma {:induction false} DeniedForever(hash: OpHash, f: Files, history: seq<Entry>, key: string, i: nat)
    requires WellKept(f) && i < |history| && Key(history[i].op) == key
    requires key in f.journals && f.journals[key].authorization.Some? && !f.journals[key].authorization.value.allowed
    ensures
      var after := FilesAfter(hash, f, history);
      && (key in after.receipts <==> key in f.receipts)
      && key in after.journals && var j := after.journals[key];
      j == f.journals[key] && j.stage.AUTHORIZED? && j.result.None? && j.accounting.None? && j.receiptKey.None?
    ensures EndingOf(hash, f, history, i).Failed?
  {
    StuckStays(hash, f, history, key);
    StuckStays(hash, f, history[..i], key);
    StuckFails(hash, FilesAfter(hash, f, history[..i]), history[i].op, history[i].call, history[i].budget);
  }

  // ------------------------------------------------------------------ where receipts come from

  /** The content hash that an observation carries is that of its content. */
  ghost predicate Authentic(hash: OpHash, o: Observation) {
    o.contentHash == hash(ContentOf(o))
  }

  /** The receipt is made of what the journal under its key has stored. */
  ghost predicate MadeFrom(hash: OpHash, op: Operation, key: string, j: OpJournal, receipt: ExecutionReceipt) {
    && Authentic(hash, op.observation) && Stored(j) && Rank(j.stage) >= 3 && Key(op) == key && j.inputHash == InputHash(hash, op)
    && receipt == ReceiptFor(hash, op, j.authorization.value, j.result.value, j.accounting.value)
  }

  ghost predicate Accounted(hash: OpHash, ops: set<Operation>, f: Files, key: string) {
    key in f.receipts && key in f.journals
    && exists op :: op in ops && MadeFrom(hash, op, key, f.journals[key], f.receipts[key])
  }

  /** Every receipt was there at the start or was made by one of the operations, whose journal has its key;
      a finalized journal points at the receipt with its own key. */
  ghost predicate Provenance(hash: OpHash, ops: set<Operation>, start: Files, f: Files) {
    && WellKept(f)
    && (forall k :: k in f.receipts ==> (k in start.receipts && f.receipts[k] == start.receipts[k]) || Accounted(hash, ops, f, k))
    && (forall k :: k in f.journals && f.journals[k].stage.FINALIZED? ==>
          f.journals[k].receiptKey == Some(k) && k in f.receipts)
  }

  lemma MadeStaysMade(hash: OpHash, op: Operation, key: string, a: OpJournal, b: OpJournal, receipt: ExecutionReceipt)
    requires MadeFrom(hash, op, key, a, receipt) && JournalExtends(a, b) && Stored(b)
    ensures MadeFrom(hash, op, key, b, receipt)
  {
  }

  lemma AccountedStays(hash: OpHash, ops: set<Operation>, a: Files, b: Files, key: string)
    requires Accounted(hash, ops, a, key) && Extends(a, b) && WellKept(b)
    ensures Accounted(hash, ops, b, key)
  {
    var op :| op in ops && MadeFrom(hash, op, key, a.journals[key], a.receipts[key]);
    MadeStaysMade(hash, op, key, a.journals[key], b.journals[key], a.receipts[key]);
  }

  /** A step adds a receipt only under its own key, made from its own journal, and finalizes only
      what has a receipt. */
  lemma StepAdds(hash: OpHash, ops: set<Operation>, f: Files, op: Operation, call: Call)
    requires op in ops && Authentic(hash, op.observation)
    requires WellKept(f) && Step(hash, f, op, call).Wrote?
    ensures
      var after := Step(hash, f, op, call).files;
      && (forall k :: k in after.receipts && k !in f.receipts ==> k == Key(op) && Accounted(hash, ops, after, k))
      && (forall k :: k in after.journals && after.journals[k].stage.FINALIZED? ==>
            (k in f.journals && after.journals[k] == f.journals[k])
            || (after.journals[k].receiptKey == Some(k) && k in f.receipts))
  {
    var after := Step(hash, f, op, call).files;
    if Key(op) in f.journals {
      var j := f.journals[Key(op)];
      StageStepShape(hash, f, op, j, call);
      if after.journals == f.journals {
        assert MadeFrom(hash, op, Key(op), j, after.receipts[Key(op)]);
      }
    }
  }

  lemma StepKeepsProvenance(hash: OpHash, ops: set<Operation>, start: Files, f: Files, op: Operation, call: Call)
    requires op in ops && Authentic(hash, op.observation)
    requires Provenance(hash, ops, start, f) && Step(hash, f, op, call).Wrote?
    ensures Provenance(hash, ops, start, Step(hash, f, op, call).files)
  {
    var after := Step(hash, f, op, call).files;
    StepExtends(hash, f, op, call);
    StepAdds(hash, ops, f, op, call);
    forall k | k in after.receipts
      ensures (k in start.receipts && after.receipts[k] == start.receipts[k]) || Accounted(hash, ops, after, k)
    {
      if k in f.receipts && Accounted(hash, ops, f, k) {
        AccountedStays(hash, ops, f, after, k);
      }
    }
  }

  lemma {:induction false} InvokeKeepsProvenance(hash: OpHash, ops: set<Operation>, start: Files, f: Files, op: Operation, call: Call, budget: nat)
    requires op in ops && Authentic(hash, op.observation) && Provenance(hash, ops, start, f)
    ensures Provenance(hash, ops, start, Invoke(hash, f, op, call, budget).files)
    decreases budget
  {
    var step := Step(hash, f, op, call);
    if step.Wrote? && budget > 0 {
      StepKeepsProvenance(hash, ops, start, f, op, call);
      InvokeKeepsProvenance(hash, ops, start, step.files, op, call, budget - 1);
    }
  }

  ghost predicate AllAuthentic(hash: OpHash, ops: set<Operation>, history: seq<Entry>) {
    forall i :: 0 <= i < |history| ==> history[i].op in ops && Authentic(hash, history[i].op.observation)
  }

  lemma {:induction false} HistoryKeepsProvenance(hash: OpHash, ops: set<Operation>, start: Files, history: seq<Entry>)
    requires Provenance(hash, ops, start, start) && AllAuthentic(hash, ops, history)
    ensures Provenance(hash, ops, start, FilesAfter(hash, start, history))
  {
    if history != [] {
      var n, e := |history| - 1, history[|history| - 1];
      HistoryKeepsProvenance(hash, ops, start, history[..n]);
      InvokeKeepsProvenance(hash, ops, start, FilesAfter(hash, start, history[..n]), e.op, e.call, e.budget);
    }
  }

  /** Same input hash, same request and same receipt. */
  lemma SameInputsSameReceipt(hash: OpHash, a: Operation, b: Operation, z: Authorization, r: ExecutionResult, c: Accounting)
    requires OpApart(hash, {a, b}) && InputHash(hash, a) == InputHash(hash, b)
    requires Authentic(hash, a.observation) && Authentic(hash, b.observation)
    ensures ReceiptFor(hash, a, z, r, c) == ReceiptFor(hash, b, z, r, c)
  {
    assert InputOf(a) == InputOf(b);
    assert ContentOf(a.observation) == ContentOf(b.observation);
  }

  lemma MadeForKey(hash: OpHash, ops: set<Operation>, f: Files, op: Operation)
    requires OpApart(hash, ops) && op in ops && Authentic(hash, op.observation) && Accounted(hash, ops, f, Key(op))
    requires f.journals[Key(op)].inputHash == InputHash(hash, op)
    ensures
      var j := f.journals[Key(op)];
      Stored(j) && Rank(j.stage) >= 3
      && f.receipts[Key(op)] == ReceiptFor(hash, op, j.authorization.value, j.result.value, j.accounting.value)
  {
    var key, j := Key(op), f.journals[Key(op)];
    var made :| made in ops && MadeFrom(hash, made, key, j, f.receipts[key]);
    SameInputsSameReceipt(hash, made, op, j.authorization.value, j.result.value, j.accounting.value);
  }

  /** What the one receipt says. It is made of the authorization, result and accounting that the
      operation's journal stored, and the authorization allowed it, unless a receipt with its key was
      on file before the operation began: then that one is returned, whatever it says. */
  lemma {:induction false} ReturnedReceipt(hash: OpHash, ops: set<Operation>, start: Files, history: seq<Entry>, i: nat)
    requires OpApart(hash, ops) && Provenance(hash, ops, start, start) && AllAuthentic(hash, ops, history)
    requires i < |history| && EndingOf(hash, start, history, i).Done?
    ensures
      var key, op, receipt := Key(history[i].op), history[i].op, EndingOf(hash, start, history, i).receipt;
      var f := FilesAfter(hash, start, history[..i + 1]);
      && key in f.journals && var j := f.journals[key];
      if key in start.receipts then receipt == start.receipts[key]
      else Stored(j) && j.stage.FINALIZED? && j.authorization.value.allowed
           && receipt == ReceiptFor(hash, op, j.authorization.value, j.result.value, j.accounting.value)
  {
    var e, before := history[i], FilesAfter(hash, start, history[..i]);
    var f, key := FilesAfter(hash, start, history[..i + 1]), Key(e.op);
    assert history[..i + 1][..i] == history[..i];
    ReturnedIsHeld(hash, before, e.op, e.call, e.budget);
    HistoryKeepsProvenance(hash, ops, start, history[..i + 1]);
    HistoryExtends(hash, start, history[..i + 1], 0);
    assert history[..i + 1][..0] == [];
    if key !in start.receipts {
      MadeForKey(hash, ops, f, e.op);
    }
  }

  // ------------------------------------------------------------------ when a call completes

  predicate InputMatches(hash: OpHash, f: Files, op: Operation) {
    Key(op) in f.journals ==> f.journals[Key(op)].inputHash == InputHash(hash, op)
  }

  function RankOf(f: Files, op: Operation): nat {
    if Key(op) in f.journals then Rank(f.journals[Key(op)].stage) else 0
  }

  predicate MayProceed(f: Files, op: Operation, call: Call)
    requires WellKept(f)
  {
    if RankOf(f, op) == 0 then
      var a := Authorize(RequestOf(op), call.capability, call.governor, call.processedAt);
      a.Ok? && a.value.allowed
    else f.journals[Key(op)].authorization.value.allowed
  }

  predicate CanPersist(hash: OpHash, f: Files, op: Operation) {
    FileSafe(Key(op))
    && (Key(op) in f.receipts ==> f.receipts[Key(op)].requestHash == hash(RequestMaterial(RequestOf(op))))
  }

  /** What decides, before the call, whether it will return: everything an outstanding stage depends on. */
  predicate CanComplete(hash: OpHash, f: Files, op: Operation, call: Call)
    requires WellKept(f)
  {
    && OperationFault(op).None? && InputMatches(hash, f, op) && MayProceed(f, op, call)
    && (RankOf(f, op) <= 1 ==> call.adapter(RequestOf(op), op.observation, op.assumptions, call.processedAt).Ok?)
    && (RankOf(f, op) <= 3 ==> CanPersist(hash, f, op))
  }

  function WritesLeft(f: Files, op: Operation): nat {
    var key := Key(op);
    if key in f.journals && f.journals[key].stage.FINALIZED? then 0
    else (if key in f.journals then 4 - Rank(f.journals[key].stage) else 5) + (if key in f.receipts then 0 else 1)
  }

  ghost predicate FinalizedHasReceipt(f: Files, key: string) {
    key in f.journals && f.journals[key].stage.FINALIZED? ==> f.journals[key].receiptKey == Some(key) && key in f.receipts
  }

  lemma FreshStepProgress(hash: OpHash, f: Files, op: Operation, call: Call)
    requires WellKept(f) && Key(op) !in f.journals && OperationFault(op).None?
    ensures Step(hash, f, op, call).Wrote?
    ensures
      var after := Step(hash, f, op, call).files;
      && WellKept(after) && FinalizedHasReceipt(after, Key(op)) && WritesLeft(after, op) == WritesLeft(f, op) - 1
      && (CanComplete(hash, after, op, call) <==> CanComplete(hash, f, op, call))
  {
    StepExtends(hash, f, op, call);
  }

  lemma StageStepDecides(hash: OpHash, f: Files, op: Operation, call: Call)
    requires WellKept(f) && Key(op) in f.journals && OperationFault(op).None? && InputMatches(hash, f, op)
    requires FinalizedHasReceipt(f, Key(op))
    ensures Step(hash, f, op, call).Returned? ==> CanComplete(hash, f, op, call)
    ensures Step(hash, f, op, call).Raised? ==> !CanComplete(hash, f, op, call)
  {
  }

  lemma StageStepKeepsChance(hash: OpHash, f: Files, op: Operation, call: Call)
    requires WellKept(f) && Key(op) in f.journals && OperationFault(op).None? && InputMatches(hash, f, op)
    requires Step(hash, f, op, call).Wrote? && WellKept(Step(hash, f, op, call).files)
    ensures CanComplete(hash, Step(hash, f, op, call).files, op, call) <==> CanComplete(hash, f, op, call)
  {
  }

  lemma StageStepProgress(hash: OpHash, f: Files, op: Operation, call: Call)
    requires WellKept(f) && Key(op) in f.journals && OperationFault(op).None? && InputMatches(hash, f, op)
    requires FinalizedHasReceipt(f, Key(op)) && Step(hash, f, op, call).Wrote?
    ensures
      var after := Step(hash, f, op, call).files;
      WellKept(after) && FinalizedHasReceipt(after, Key(op)) && WritesLeft(after, op) == WritesLeft(f, op) - 1
  {
    StepExtends(hash, f, op, call);
  }

  /** A call that is not stopped returns exactly when it can complete; a call of an operation whose
      decision id is not file-safe therefore never does. */
  lemma {:induction false} CompletesExactly(hash: OpHash, f: Files, op: Operation, call: Call, budget: nat)
    requires WellKept(f) && FinalizedHasReceipt(f, Key(op)) && budget >= WritesLeft(f, op)
    ensures Invoke(hash, f, op, call, budget).ending.Done? <==> CanComplete(hash, f, op, call)
    ensures !Invoke(hash, f, op, call, budget).ending.Stopped?
    decreases budget
  {
    if OperationFault(op).None? && InputMatches(hash, f, op) {
      var step := Step(hash, f, op, call);
      if Key(op) in f.journals {
        StageStepDecides(hash, f, op, call);
        if step.Wrote? {
          StageStepProgress(hash, f, op, call);
          StageStepKeepsChance(hash, f, op, call);
        }
      } else {
        FreshStepProgress(hash, f, op, call);
      }
      if step.Wrote? {
        CompletesExactly(hash, step.files, op, call, budget - 1);
      }
    }
  }

  // ------------------------------------------------------------------ an unsafe decision id

  /** Everything but the receipt would go through. */
  ghost predicate OnlyReceiptFails(hash: OpHash, f: Files, op: Operation, call: Call)
    requires WellKept(f)
  {
    && OperationFault(op).None? && InputMatches(hash, f, op) && MayProceed(f, op, call) && !FileSafe(Key(op))
    && (RankOf(f, op) <= 1 ==> call.adapter(RequestOf(op), op.observation, op.assumptions, call.processedAt).Ok?)
    && RankOf(f, op) <= 3
  }

  function StagesLeft(f: Files, op: Operation): int {
    if Key(op) in f.journals then 3 - Rank(f.journals[Key(op)].stage) else 4
  }

  lemma UnsafeStep(hash: OpHash, f: Files, op: Operation, call: Call)
    requires WellKept(f) && OnlyReceiptFails(hash, f, op, call)
    ensures StagesLeft(f, op) == 0 ==>
      Step(hash, f, op, call) == Raised(UnsafeRequestId) && f.journals[Key(op)].stage.ACCOUNTED?
    ensures StagesLeft(f, op) > 0 ==>
      && Step(hash, f, op, call).Wrote? && WellKept(Step(hash, f, op, call).files)
      && OnlyReceiptFails(hash, Step(hash, f, op, call).files, op, call)
      && StagesLeft(Step(hash, f, op, call).files, op) == StagesLeft(f, op) - 1
  {
    if StagesLeft(f, op) > 0 {
      StepExtends(hash, f, op, call);
    }
  }

  lemma {:induction false} UnsafeIdReachesAccounted(hash: OpHash, f: Files, op: Operation, call: Call, budget: nat)
    requires WellKept(f) && OnlyReceiptFails(hash, f, op, call) && budget >= StagesLeft(f, op)
    ensures
      var run := Invoke(hash, f, op, call, budget);
      && run.ending == Failed(UnsafeRequestId)
      && Key(op) in run.files.journals && run.files.journals[Key(op)].stage.ACCOUNTED?
    decreases StagesLeft(f, op)
  {
    UnsafeStep(hash, f, op, call);
    if StagesLeft(f, op) > 0 {
      UnsafeIdReachesAccounted(hash, Step(hash, f, op, call).files, op, call, budget - 1);
    }
  }

  /** An operation whose decision id is no file name is authorized, executed and accounted, and stays so:
      whatever is called afterwards, no receipt appears and no call for it returns. */
  lemma {:induction false} UnsafeIdStaysAccounted(hash: OpHash, f: Files, op: Operation, call: Call, budget: nat,
                                                  history: seq<Entry>, i: nat)
    requires WellKept(f) && OnlyReceiptFails(hash, f, op, call) && budget >= StagesLeft(f, op)
    requires i < |history| && Key(history[i].op) == Key(op)
    ensures
      var run := Invoke(hash, f, op, call, budget);
      var after := FilesAfter(hash, run.files, history);
      && run.ending == Failed(UnsafeRequestId)
      && Key(op) in after.journals && after.journals[Key(op)].stage.ACCOUNTED?
      && (Key(op) in after.receipts <==> Key(op) in run.files.receipts)
      && EndingOf(hash, run.files, history, i).Failed?
  {
    UnsafeIdReachesAccounted(hash, f, op, call, budget);
    var files := Invoke(hash, f, op, call, budget).files;
    StuckStays(hash, files, history, Key(op));
    StuckStays(hash, files, history[..i], Key(op));
    StuckFails(hash, FilesAfter(hash, files, history[..i]), history[i].op, history[i].call, history[i].budget);
  }

  const NO_FILES := Files(map[], map[])
  const SPACED_OPERATION := Operation(
    TypedDecision("a b", "CAP", "OBS", "T", BUY, 1.0, MARKET, None, "R"),
    Observation("OBS", "BTC-USD", VALID, 1.0, 0, 1, "H", true),
    Assumptions("A", 0.0, 0.0, 0.0, 0, 0.0, 1.0, 1.0, 1.0, 0.0, 1.0))
  const SHADOW_CALL := Call(Capability("CAP", PREREGISTERED), Governor(true, Some(0.0), Some(0.0), Some(0.0)),
                            (q: ExecutionRequest, o: Observation, a: Assumptions, at: string) => Execute(q, o, a, at), "T")

  lemma StartsInk(s: string)
    requires s != "" && s[0] !in " \t\n\r"
    ensures !Blank(s)
  {
  }

  lemma SpacedTexts()
    ensures OperationFault(SPACED_OPERATION).None? && ValidRequest(RequestOf(SPACED_OPERATION))
  {
    var q := RequestOf(SPACED_OPERATION);
    StartsInk(q.requestId); StartsInk(q.idempotencyKey); StartsInk(q.capabilityId); StartsInk(q.decisionId);
    StartsInk(q.observationId); StartsInk(q.instrument); StartsInk(q.createdAt);
    StartsInk(SPACED_OPERATION.decision.rationale);
  }

  lemma AdapterAnswers(q: ExecutionRequest, o: Observation, a: Assumptions, at: string)
    requires ValidRequest(q) && ValidAssumptions(a) && o.wellFormed
    ensures SHADOW_CALL.adapter(q, o, a, at).Ok?
  {
  }

  lemma OnlyReceiptFailsThere(hash: OpHash)
    ensures WellKept(NO_FILES) && OnlyReceiptFails(hash, NO_FILES, SPACED_OPERATION, SHADOW_CALL)
  {
    SpacedKey();
    SpacedTexts();
    SpacedMayProceed();
    AdapterAnswers(RequestOf(SPACED_OPERATION), SPACED_OPERATION.observation, SPACED_OPERATION.assumptions, "T");
  }

  lemma SpacedKey()
    ensures !FileSafe(Key(SPACED_OPERATION))
  {
    var key := Key(SPACED_OPERATION);
    assert key[5] == ' ' && !SafeChar(key[5]);
  }

  lemma SpacedMayProceed()
    ensures MayProceed(NO_FILES, SPACED_OPERATION, SHADOW_CALL)
  {
    SpacedTexts();
    AuthorizedExactly(RequestOf(SPACED_OPERATION), SHADOW_CALL.capability, SHADOW_CALL.governor, "T");
  }

  /** It happens on an empty store, with the decision id "a b" and the deterministic adapter. */
  lemma UnsafeIdHappens(hash: OpHash)
    ensures
      var run := Invoke(hash, NO_FILES, SPACED_OPERATION, SHADOW_CALL, 4);
      && run.ending == Failed(UnsafeRequestId)
      && Key(SPACED_OPERATION) in run.files.journals && run.files.journals[Key(SPACED_OPERATION)].stage.ACCOUNTED?
  {
    OnlyReceiptFailsThere(hash);
    assert StagesLeft(NO_FILES, SPACED_OPERATION) == 4;
    UnsafeIdReachesAccounted(hash, NO_FILES, SPACED_OPERATION, SHADOW_CALL, 4);
  }

  /** A call that ends does the same with more writes allowed, and once more at no cost. */
  lemma EndedNeedsNoMore(hash: OpHash, f: Files, op: Operation, call: Call, budget: nat, more: nat)
    requires WellKept(f) && !Invoke(hash, f, op, call, budget).ending.Stopped?
    ensures
      var run := Invoke(hash, f, op, call, budget);
      && Invoke(hash, f, op, call, budget + more) == Invocation(run.files, run.ending, run.left + more)
      && Invoke(hash, run.files, op, call, more) == Invocation(run.files, run.ending, more)
  {
    IterateNeedsNoMore(StepOf(hash, op, call), f, budget, more);
  }

  lemma {:induction false} WritesSpent(hash: OpHash, f: Files, op: Operation, call: Call, budget: nat)
    requires WellKept(f) && FinalizedHasReceipt(f, Key(op)) && Invoke(hash, f, op, call, budget).ending.Done?
    ensures Invoke(hash, f, op, call, budget).left + WritesLeft(f, op) == budget
    decreases budget
  {
    var step := Step(hash, f, op, call);
    assert OperationFault(op).None? && InputMatches(hash, f, op);
    if step.Wrote? {
      if Key(op) in f.journals {
        StageStepProgress(hash, f, op, call);
      } else {
        FreshStepProgress(hash, f, op, call);
      }
      WritesSpent(hash, step.files, op, call, budget - 1);
    }
  }

  /** A different operation under the same decision id is refused and changes nothing. */
  lemma ConflictIsRefused(hash: OpHash, f: Files, first: Operation, second: Operation, call: Call, budget: nat)
    requires WellKept(f) && OpApart(hash, {first, second}) && Key(first) == Key(second) && Key(first) in f.journals
    requires f.journals[Key(first)].inputHash == InputHash(hash, first)
    requires first.decision != second.decision || first.observation.contentHash != second.observation.contentHash
          || first.assumptions != second.assumptions
    ensures Invoke(hash, f, second, call, budget).ending.Failed? && Invoke(hash, f, second, call, budget).files == f
  {
    assert InputOf(first) != InputOf(second);
  }
}

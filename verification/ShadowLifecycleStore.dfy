/** ShadowLifecycle.run as the source performs it on its files, proved equal to the step model. */
module ShadowLifecycleStore {
  import opened Prelude
  import opened Execution
  import opened ShadowLifecycle

  /** What the next step is while the receipt is outstanding. */
  lemma ReceiptStep(hash: OpHash, f: Files, op: Operation, call: Call, receipt: ExecutionReceipt)
    requires WellKept(f) && OperationFault(op).None?
    requires Key(op) in f.journals && f.journals[Key(op)].inputHash == InputHash(hash, op)
    requires f.journals[Key(op)].stage.ACCOUNTED?
    requires
      var j := f.journals[Key(op)];
      receipt == ReceiptFor(hash, op, j.authorization.value, j.result.value, j.accounting.value)
    ensures Persist(f.receipts, receipt).Err? ==> Step(hash, f, op, call) == Raised(Persist(f.receipts, receipt).error)
    ensures Persist(f.receipts, receipt).Ok? && Persist(f.receipts, receipt).value != f.receipts ==>
      Step(hash, f, op, call) == Wrote(f.(receipts := Persist(f.receipts, receipt).value))
  {
  }

  /** The operation journals and the receipt store. Each durable write spends one unit of the budget;
      with none left the process stops. */
  class LifecycleStore {
    var journals: map<string, OpJournal>
    var receipts: map<string, ExecutionReceipt>
    var budget: nat

    function Current(): Files reads this { Files(journals, receipts) }

    constructor (files: Files, budget: nat)
      ensures Current() == files && this.budget == budget
    {
      journals, receipts := files.journals, files.receipts;
      this.budget := budget;
    }

    /** Either the call has ended as the model says, or what is left to do is what the model still does. */
    ghost predicate Follows(hash: OpHash, op: Operation, call: Call, goal: Invocation, ended: Option<Ending>)
      reads this
    {
      && WellKept(Current())
      && match ended
         case Some(e) => goal == Invocation(Current(), e, budget)
         case None => goal == Invoke(hash, Current(), op, call, budget)
    }

    /** Writes the journal whose stage has just advanced. */
    method SaveJournal(hash: OpHash, op: Operation, call: Call, j: OpJournal, ghost goal: Invocation)
      returns (ended: Option<Ending>)
      requires Follows(hash, op, call, goal, None)
      requires Step(hash, Current(), op, call) == Wrote(WithJournal(Current(), Key(op), j))
      modifies this
      ensures Follows(hash, op, call, goal, ended)
      ensures ended.None? ==> Current() == WithJournal(old(Current()), Key(op), j)
    {
      StepExtends(hash, Current(), op, call);
      if budget == 0 { return Some(Stopped); }
      journals, budget := journals[Key(op) := j], budget - 1;
      return None;
    }

    method OpenJournal(hash: OpHash, op: Operation, call: Call, ghost goal: Invocation) returns (ended: Option<Ending>)
      requires OperationFault(op).None? && Follows(hash, op, call, goal, None)
      modifies this
      ensures Follows(hash, op, call, goal, ended)
      ensures ended.None? ==> Key(op) in journals && journals[Key(op)].inputHash == InputHash(hash, op)
    {
      if Key(op) in journals {
        if journals[Key(op)].inputHash != InputHash(hash, op) { return Some(Failed(IdempotencyConflict)); }
        return None;
      }
      ended := SaveJournal(hash, op, call, NewJournal(hash, op), goal);
    }

    method AuthorizeStage(hash: OpHash, op: Operation, call: Call, ghost goal: Invocation) returns (ended: Option<Ending>)
      requires OperationFault(op).None? && Follows(hash, op, call, goal, None)
      requires Key(op) in journals && journals[Key(op)].inputHash == InputHash(hash, op)
      modifies this
      ensures Follows(hash, op, call, goal, ended)
      ensures ended.None? ==>
        Key(op) in journals && journals[Key(op)].inputHash == InputHash(hash, op)
        && Rank(journals[Key(op)].stage) >= 1 && journals[Key(op)].authorization.value.allowed
    {
      ended := None;
      var j := journals[Key(op)];
      if j.stage.PREPARED? {
        var decided := AuthorizeExecution(RequestOf(op), call.capability, call.governor, call.processedAt);
        if decided.Err? { return Some(Failed(decided.error)); }
        j := j.(stage := AUTHORIZED, authorization := Some(decided.value));
        ended := SaveJournal(hash, op, call, j, goal);
        if ended.Some? { return; }
      }
      if !j.authorization.value.allowed { return Some(Failed(Denied(j.authorization.value.reasons))); }
    }

    method ExecuteStage(hash: OpHash, op: Operation, call: Call, ghost goal: Invocation) returns (ended: Option<Ending>)
      requires OperationFault(op).None? && Follows(hash, op, call, goal, None)
      requires Key(op) in journals && journals[Key(op)].inputHash == InputHash(hash, op)
      requires Rank(journals[Key(op)].stage) >= 1 && journals[Key(op)].authorization.value.allowed
      modifies this
      ensures Follows(hash, op, call, goal, ended)
      ensures ended.None? ==>
        Key(op) in journals && journals[Key(op)].inputHash == InputHash(hash, op) && Rank(journals[Key(op)].stage) >= 2
    {
      ended := None;
      var j := journals[Key(op)];
      if j.stage.AUTHORIZED? {
        var executed := call.adapter(RequestOf(op), op.observation, op.assumptions, call.processedAt);
        if executed.Err? { return Some(Failed(executed.error)); }
        ended := SaveJournal(hash, op, call, j.(stage := EXECUTED, result := Some(executed.value)), goal);
      }
    }

    method AccountStage(hash: OpHash, op: Operation, call: Call, ghost goal: Invocation) returns (ended: Option<Ending>)
      requires OperationFault(op).None? && Follows(hash, op, call, goal, None)
      requires Key(op) in journals && journals[Key(op)].inputHash == InputHash(hash, op)
      requires Rank(journals[Key(op)].stage) >= 2
      modifies this
      ensures Follows(hash, op, call, goal, ended)
      ensures ended.None? ==>
        Key(op) in journals && journals[Key(op)].inputHash == InputHash(hash, op) && Rank(journals[Key(op)].stage) >= 3
    {
      ended := None;
      var j := journals[Key(op)];
      if j.stage.EXECUTED? {
        var accounting := ComputeAccounting(RequestOf(op), j.result.value, op.observation.close, call.processedAt);
        ended := SaveJournal(hash, op, call, j.(stage := ACCOUNTED, accounting := Some(accounting)), goal);
      }
    }

    /** ReceiptStore.persist: an existing receipt is kept; an absent one is written. */
    method PersistReceipt(hash: OpHash, op: Operation, call: Call, receipt: ExecutionReceipt, ghost goal: Invocation)
      returns (ended: Option<Ending>)
      requires OperationFault(op).None? && Follows(hash, op, call, goal, None)
      requires Key(op) in journals && journals[Key(op)].inputHash == InputHash(hash, op)
      requires journals[Key(op)].stage.ACCOUNTED?
      requires
        var j := journals[Key(op)];
        receipt == ReceiptFor(hash, op, j.authorization.value, j.result.value, j.accounting.value)
      modifies this
      ensures Follows(hash, op, call, goal, ended) && journals == old(journals)
      ensures ended.None? ==> Persist(receipts, receipt) == Ok(receipts)
    {
      ReceiptStep(hash, Current(), op, call, receipt);
      var id := receipt.request.requestId;
      if !FileSafe(id) { return Some(Failed(UnsafeRequestId)); }
      if id in receipts {
        if receipts[id].requestHash != receipt.requestHash { return Some(Failed(ReceiptConflict)); }
        return None;
      }
      StepExtends(hash, Current(), op, call);
      if budget == 0 { return Some(Stopped); }
      receipts, budget := receipts[id := receipt], budget - 1;
      return None;
    }

    method FinalizeStage(hash: OpHash, op: Operation, call: Call, ghost goal: Invocation) returns (ended: Option<Ending>)
      requires OperationFault(op).None? && Follows(hash, op, call, goal, None)
      requires Key(op) in journals && journals[Key(op)].inputHash == InputHash(hash, op)
      requires Rank(journals[Key(op)].stage) >= 3
      modifies this
      ensures Follows(hash, op, call, goal, ended)
      ensures ended.None? ==>
        Key(op) in journals && journals[Key(op)].inputHash == InputHash(hash, op) && journals[Key(op)].stage.FINALIZED?
    {
      ended := None;
      var j := journals[Key(op)];
      if j.stage.ACCOUNTED? {
        var receipt := ReceiptFor(hash, op, j.authorization.value, j.result.value, j.accounting.value);
        ended := PersistReceipt(hash, op, call, receipt, goal);
        if ended.Some? { return; }
        ended := SaveJournal(hash, op, call, j.(stage := FINALIZED, receiptKey := Some(Key(op))), goal);
      }
    }

    /** Stage by stage up to the finalized journal. */
    method Advance(hash: OpHash, op: Operation, call: Call, ghost goal: Invocation) returns (ended: Option<Ending>)
      requires OperationFault(op).None? && Follows(hash, op, call, goal, None)
      modifies this
      ensures Follows(hash, op, call, goal, ended)
      ensures ended.None? ==>
        Key(op) in journals && journals[Key(op)].inputHash == InputHash(hash, op) && journals[Key(op)].stage.FINALIZED?
    {
      ended := OpenJournal(hash, op, call, goal);
      if ended.Some? { return; }
      ended := AuthorizeStage(hash, op, call, goal);
      if ended.Some? { return; }
      ended := ExecuteStage(hash, op, call, goal);
      if ended.Some? { return; }
      ended := AccountStage(hash, op, call, goal);
      if ended.Some? { return; }
      ended := FinalizeStage(hash, op, call, goal);
    }

    /** ShadowLifecycle.run: stage by stage from wherever the journal stands. */
    method Run(hash: OpHash, op: Operation, call: Call) returns (ending: Ending)
      requires WellKept(Current())
      modifies this
      ensures Invoke(hash, old(Current()), op, call, old(budget)) == Invocation(Current(), ending, budget)
    {
      ghost var goal := Invoke(hash, Current(), op, call, budget);
      var fault := OperationFault(op);
      if fault.Some? { return Failed(fault.value); }
      var ended := Advance(hash, op, call, goal);
      if ended.Some? { return ended.value; }
      var path := journals[Key(op)].receiptKey.value;
      ending := if path in receipts then Done(receipts[path]) else Failed(ReceiptMissing);
    }
  }
}

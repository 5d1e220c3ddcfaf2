/** The evidence outbox of book_outbox.py. Writing a record, calling the Book and removing a pending
    file are one step each; a process may stop between any two. */
module BookOutbox {
  import opened Prelude
  import opened Sorting

  datatype Envelope = Envelope(
    receiptId: string, producer: string, eventType: string, privacyClass: string, payloadDigest: string, rest: string)

  datatype Acceptance = Acceptance(
    receiptId: string, sequence: int, entryHash: string, recordedAt: string, accepted: bool, duplicateReplay: bool)

  datatype State = PENDING | ACKNOWLEDGED | QUARANTINED

  datatype Record = Record(
    receiptId: string, state: State, envelope: Envelope, envelopeDigest: string, payload: string,
    payloadDigest: string, attempts: nat, createdAt: string, lastAttemptAt: Option<string>,
    lastError: Option<string>, acknowledgedAt: Option<string>, bookReceipt: Option<Acceptance>,
    quarantineReason: Option<string>)

  /** What a digest is taken of. */
  datatype Blob = PayloadBytes(payload: string) | EnvelopeBytes(envelope: Envelope)

  type Digest = Blob -> string

  ghost predicate DigestInjective(digest: Digest) {
    forall a: Blob, b: Blob :: digest(a) == digest(b) ==> a == b
  }

  /** The outcome of one call of the transport: a receipt, a permanent refusal, or any other trouble. */
  datatype Response = Answered(acceptance: Acceptance) | Permanent(reason: string) | Trouble(error: string)

  datatype Evidence = Evidence(envelope: Envelope, payload: string)

  /** A decision on a receipt: what the Book answered, or a quarantine by an operator. */
  datatype Verdict = ByBook(evidence: Evidence, response: Response) | ByOperator(reason: string)

  datatype Ruling = Ruling(receiptId: string, verdict: Verdict)

  /** The three directories, and what has happened: the evidence first enqueued under each id and the
      rulings in order. */
  datatype Box = Box(
    pending: map<string, Record>, acknowledged: map<string, Record>, quarantined: map<string, Record>,
    enqueued: map<string, Evidence>, rulings: seq<Ruling>)

  datatype Fault =
    | ReceiptIdRequired | NotOurEvidence | SecretPayload | PayloadMismatch | OutboxConflict
    | UnknownReceipt | ReasonRequired

  /** The states one call writes, one step at a time, and its result. */
  datatype Run = Run(states: seq<Box>, result: Result<Record, Fault>)

  function Final(b: Box, states: seq<Box>): Box { if states == [] then b else states[|states| - 1] }

  function EvidenceOf(r: Record): Evidence { Evidence(r.envelope, r.payload) }

  function Find(b: Box, id: string): Option<Record> {
    if id in b.pending then Some(b.pending[id])
    else if id in b.acknowledged then Some(b.acknowledged[id])
    else if id in b.quarantined then Some(b.quarantined[id])
    else None
  }

  // ------------------------------------------------------------------ enqueue

  predicate StartsWith(s: string, prefix: string) { prefix <= s }

  function EnqueueFault(digest: Digest, e: Envelope, payload: string): Option<Fault> {
    if e.receiptId == "" then Some(ReceiptIdRequired)
    else if e.producer != "ZLJ" || !StartsWith(e.eventType, "ZLJ.") then Some(NotOurEvidence)
    else if e.privacyClass == "SECRET_REGULATED" then Some(SecretPayload)
    else if digest(PayloadBytes(payload)) != e.payloadDigest then Some(PayloadMismatch)
    else None
  }

  function NewRecord(digest: Digest, e: Envelope, payload: string, now: string): Record {
    Record(e.receiptId, PENDING, e, digest(EnvelopeBytes(e)), payload, digest(PayloadBytes(payload)), 0, now,
           None, None, None, None, None)
  }

  function EnqueueRun(digest: Digest, b: Box, e: Envelope, payload: string, now: string): Run {
    var fault := EnqueueFault(digest, e, payload);
    if fault.Some? then Run([], Err(fault.value))
    else
      var existing := Find(b, e.receiptId);
      if existing.Some? then
        if existing.value.envelopeDigest != digest(EnvelopeBytes(e)) || existing.value.payloadDigest != digest(PayloadBytes(payload))
        then Run([], Err(OutboxConflict)) else Run([], Ok(existing.value))
      else
        var r := NewRecord(digest, e, payload, now);
        Run([b.(pending := b.pending[e.receiptId := r], enqueued := b.enqueued[e.receiptId := Evidence(e, payload)])], Ok(r))
  }

  // ------------------------------------------------------------------ quarantine

  function Quarantined(r: Record, reason: string): Record {
    r.(state := QUARANTINED, quarantineReason := Some(reason), lastError := Some(reason))
  }

  /** The quarantine of a pending record: the copy, then the removal of the pending file. */
  function QuarantineRun(b: Box, id: string, reason: string, rulings: seq<Ruling>): Run {
    if reason == "" then Run([], Err(ReasonRequired))
    else if id !in b.pending then
      var existing := Find(b, id);
      Run([], if existing.None? then Err(UnknownReceipt) else Ok(existing.value))
    else
      var r := Quarantined(b.pending[id], reason);
      var written := b.(quarantined := b.quarantined[id := r], rulings := rulings);
      Run([written, written.(pending := written.pending - {id})], Ok(r))
  }

  /** BookOutbox.quarantine as an operator calls it. */
  function OperatorRun(b: Box, id: string, reason: string): Run {
    QuarantineRun(b, id, reason, b.rulings + [Ruling(id, ByOperator(reason))])
  }

  // ------------------------------------------------------------------ deliver_one

  function Attempted(r: Record, now: string): Record {
    r.(attempts := r.attempts + 1, lastAttemptAt := Some(now), lastError := None)
  }

  function Acknowledged(r: Record, a: Acceptance, now: string): Record {
    r.(state := ACKNOWLEDGED, acknowledgedAt := Some(now), bookReceipt := Some(a))
  }

  /** After the Book has answered. */
  function SettleRun(b: Box, id: string, response: Response, now: string): Run
    requires id in b.pending
  {
    match response
    case Permanent(reason) => QuarantineRun(b, id, reason, b.rulings)
    case Trouble(error) =>
      var r := b.pending[id].(lastError := Some(error));
      Run([b.(pending := b.pending[id := r])], Ok(r))
    case Answered(a) =>
      if !a.accepted || a.receiptId != id then
        QuarantineRun(b, id, "Book returned an invalid acceptance receipt", b.rulings)
      else
        var r := Acknowledged(b.pending[id], a, now);
        var written := b.(acknowledged := b.acknowledged[id := r]);
        Run([written, written.(pending := written.pending - {id})], Ok(r))
  }

  function DeliverRun(digest: Digest, b: Box, id: string, response: Response, now: string): Run {
    if id !in b.pending then
      var existing := Find(b, id);
      Run([], if existing.None? then Err(UnknownReceipt) else Ok(existing.value))
    else
      var r := b.pending[id];
      if digest(PayloadBytes(r.payload)) != r.payloadDigest then QuarantineRun(b, id, "stored payload digest mismatch", b.rulings)
      else if digest(EnvelopeBytes(r.envelope)) != r.envelopeDigest then QuarantineRun(b, id, "stored envelope digest mismatch", b.rulings)
      else
        var attempted := b.(pending := b.pending[id := Attempted(r, now)]);
        var ruling := Ruling(id, ByBook(EvidenceOf(r), response));
        var answered := attempted.(rulings := b.rulings + [ruling]);
        var rest := SettleRun(answered, id, response, now);
        Run([attempted, answered] + rest.states, rest.result)
  }

  // ------------------------------------------------------------------ what holds in every state

  predicate Accepting(r: Ruling) {
    r.verdict.ByBook? && r.verdict.response.Answered?
    && r.verdict.response.acceptance.accepted && r.verdict.response.acceptance.receiptId == r.receiptId
  }

  predicate Rejecting(r: Ruling) {
    match r.verdict
    case ByOperator(_) => true
    case ByBook(_, response) => response.Permanent? || (response.Answered? && !Accepting(r))
  }

  /** The record carries the evidence enqueued under its id, with matching digests. */
  ghost predicate Faithful(digest: Digest, enqueued: map<string, Evidence>, id: string, r: Record) {
    && id in enqueued && r.receiptId == id && EvidenceOf(r) == enqueued[id]
    && r.envelopeDigest == digest(EnvelopeBytes(r.envelope)) && r.payloadDigest == digest(PayloadBytes(r.payload))
  }

  ghost predicate BookAccepted(rulings: seq<Ruling>, id: string, r: Record) {
    && r.bookReceipt.Some? && r.bookReceipt.value.accepted && r.bookReceipt.value.receiptId == id
    && Ruling(id, ByBook(EvidenceOf(r), Answered(r.bookReceipt.value))) in rulings
  }

  ghost predicate RuledOut(rulings: seq<Ruling>, id: string) {
    exists r :: r in rulings && r.receiptId == id && Rejecting(r)
  }

  ghost predicate SoundAt(digest: Digest, b: Box, id: string) {
    && (id in b.enqueued ==> id in b.pending || id in b.acknowledged || id in b.quarantined)
    && (id in b.pending ==> Faithful(digest, b.enqueued, id, b.pending[id]))
    && (id in b.acknowledged ==>
          Faithful(digest, b.enqueued, id, b.acknowledged[id]) && BookAccepted(b.rulings, id, b.acknowledged[id]))
    && (id in b.quarantined ==>
          Faithful(digest, b.enqueued, id, b.quarantined[id]) && RuledOut(b.rulings, id)
          && b.quarantined[id].quarantineReason.Some? && b.quarantined[id].quarantineReason.value != "")
  }

  /** Every enqueued receipt is in a directory; every copy carries the original evidence; an
      acknowledged copy has a receipt that the Book gave; a quarantined one was ruled out. */
  ghost predicate Sound(digest: Digest, b: Box) {
    forall id :: SoundAt(digest, b, id)
  }

  /** Nothing enqueued is forgotten or replaced, and no ruling is taken back. */
  ghost predicate Follows(a: Box, b: Box) {
    && (forall id :: id in a.enqueued ==> id in b.enqueued && b.enqueued[id] == a.enqueued[id])
    && a.rulings <= b.rulings
    && (forall id :: id in a.acknowledged ==> id in b.acknowledged)
    && (forall id :: id in a.quarantined ==> id in b.quarantined)
  }

  ghost predicate AllSound(digest: Digest, b: Box, states: seq<Box>) {
    forall i :: 0 <= i < |states| ==> Sound(digest, states[i]) && Follows(b, states[i])
  }

  lemma MoreRulingsAreSound(digest: Digest, b: Box, rulings: seq<Ruling>)
    requires Sound(digest, b) && b.rulings <= rulings
    ensures Sound(digest, b.(rulings := rulings))
  {
    assert forall r :: r in b.rulings ==> r in rulings;
    var after := b.(rulings := rulings);
    forall id ensures SoundAt(digest, after, id) {
      assert SoundAt(digest, b, id);
    }
  }

  lemma PendingWriteIsSound(digest: Digest, b: Box, id: string, r: Record)
    requires Sound(digest, b) && id in b.pending && Faithful(digest, b.enqueued, id, r)
    ensures Sound(digest, b.(pending := b.pending[id := r]))
  {
    var after := b.(pending := b.pending[id := r]);
    forall k ensures SoundAt(digest, after, k) {
      assert SoundAt(digest, b, k);
    }
  }

  lemma QuarantineWriteIsSound(digest: Digest, b: Box, id: string, r: Record)
    requires Sound(digest, b) && Faithful(digest, b.enqueued, id, r) && RuledOut(b.rulings, id)
    requires r.quarantineReason.Some? && r.quarantineReason.value != ""
    ensures Sound(digest, b.(quarantined := b.quarantined[id := r]))
  {
    var after := b.(quarantined := b.quarantined[id := r]);
    forall k ensures SoundAt(digest, after, k) {
      assert SoundAt(digest, b, k);
    }
  }

  lemma AcknowledgeWriteIsSound(digest: Digest, b: Box, id: string, r: Record)
    requires Sound(digest, b) && Faithful(digest, b.enqueued, id, r) && BookAccepted(b.rulings, id, r)
    ensures Sound(digest, b.(acknowledged := b.acknowledged[id := r]))
  {
    var after := b.(acknowledged := b.acknowledged[id := r]);
    forall k ensures SoundAt(digest, after, k) {
      assert SoundAt(digest, b, k);
    }
  }

  lemma UnlinkIsSound(digest: Digest, b: Box, id: string)
    requires Sound(digest, b) && (id in b.acknowledged || id in b.quarantined)
    ensures Sound(digest, b.(pending := b.pending - {id}))
  {
    var after := b.(pending := b.pending - {id});
    forall k ensures SoundAt(digest, after, k) {
      assert SoundAt(digest, b, k);
    }
  }

  ghost predicate BothSound(digest: Digest, b: Box, written: Box, unlinked: Box) {
    Sound(digest, written) && Sound(digest, unlinked) && Follows(b, written) && Follows(b, unlinked)
  }

  lemma QuarantineIsSound(digest: Digest, b: Box, id: string, reason: string, rulings: seq<Ruling>)
    requires Sound(digest, b) && b.rulings <= rulings && RuledOut(rulings, id)
    ensures AllSound(digest, b, QuarantineRun(b, id, reason, rulings).states)
  {
    if reason != "" && id in b.pending {
      assert SoundAt(digest, b, id);
      var ruled := b.(rulings := rulings);
      var r := Quarantined(b.pending[id], reason);
      var written := ruled.(quarantined := ruled.quarantined[id := r]);
      MoreRulingsAreSound(digest, b, rulings);
      QuarantineWriteIsSound(digest, ruled, id, r);
      UnlinkIsSound(digest, written, id);
      assert BothSound(digest, b, written, written.(pending := written.pending - {id}));
    }
  }

  lemma AcknowledgeIsSound(digest: Digest, b: Box, id: string, a: Acceptance, now: string)
    requires Sound(digest, b) && id in b.pending && a.accepted && a.receiptId == id
    requires
      var r := b.pending[id];
      Ruling(id, ByBook(EvidenceOf(r), Answered(a))) in b.rulings
    ensures AllSound(digest, b, SettleRun(b, id, Answered(a), now).states)
  {
    assert SoundAt(digest, b, id);
    var r := Acknowledged(b.pending[id], a, now);
    var written := b.(acknowledged := b.acknowledged[id := r]);
    AcknowledgeWriteIsSound(digest, b, id, r);
    UnlinkIsSound(digest, written, id);
    assert BothSound(digest, b, written, written.(pending := written.pending - {id}));
  }

  lemma SettleIsSound(digest: Digest, b: Box, id: string, response: Response, now: string)
    requires Sound(digest, b) && id in b.pending
    requires
      var r := b.pending[id];
      b.rulings != [] && b.rulings[|b.rulings| - 1] == Ruling(id, ByBook(EvidenceOf(r), response))
    ensures AllSound(digest, b, SettleRun(b, id, response, now).states)
  {
    var last := b.rulings[|b.rulings| - 1];
    assert last in b.rulings && SoundAt(digest, b, id);
    if response.Trouble? {
      PendingWriteIsSound(digest, b, id, b.pending[id].(lastError := Some(response.error)));
    } else if Accepting(last) {
      AcknowledgeIsSound(digest, b, id, response.acceptance, now);
    } else {
      QuarantineIsSound(digest, b, id,
        if response.Permanent? then response.reason else "Book returned an invalid acceptance receipt", b.rulings);
    }
  }

  lemma FollowsTransitive(a: Box, b: Box, c: Box)
    requires Follows(a, b) && Follows(b, c)
    ensures Follows(a, c)
  {
  }

  /** On sound files the stored digests match: those quarantines never happen. */
  lemma DeliverIsSound(digest: Digest, b: Box, id: string, response: Response, now: string)
    requires Sound(digest, b)
    ensures AllSound(digest, b, DeliverRun(digest, b, id, response, now).states)
  {
    if id in b.pending {
      assert SoundAt(digest, b, id);
      var r := b.pending[id];
      var attempted := b.(pending := b.pending[id := Attempted(r, now)]);
      var ruling := Ruling(id, ByBook(EvidenceOf(r), response));
      var answered := attempted.(rulings := b.rulings + [ruling]);
      PendingWriteIsSound(digest, b, id, Attempted(r, now));
      MoreRulingsAreSound(digest, attempted, answered.rulings);
      SettleIsSound(digest, answered, id, response, now);
      var rest := SettleRun(answered, id, response, now).states;
      forall i | 0 <= i < |rest| ensures Follows(b, rest[i]) {
        assert Follows(b, answered);
        FollowsTransitive(b, answered, rest[i]);
      }
    }
  }

  lemma OperatorIsSound(digest: Digest, b: Box, id: string, reason: string)
    requires Sound(digest, b)
    ensures AllSound(digest, b, OperatorRun(b, id, reason).states)
  {
    var r := Ruling(id, ByOperator(reason));
    assert r in b.rulings + [r];
    QuarantineIsSound(digest, b, id, reason, b.rulings + [r]);
  }

  lemma EnqueueIsSound(digest: Digest, b: Box, e: Envelope, payload: string, now: string)
    requires Sound(digest, b)
    ensures AllSound(digest, b, EnqueueRun(digest, b, e, payload, now).states)
  {
    var run := EnqueueRun(digest, b, e, payload, now);
    if run.states != [] {
      assert SoundAt(digest, b, e.receiptId);
      var after := run.states[0];
      forall k ensures SoundAt(digest, after, k) {
        assert SoundAt(digest, b, k);
      }
    }
  }

  // ------------------------------------------------------------------ whole runs

  datatype Call =
    | Enqueue(envelope: Envelope, payload: string, now: string)
    | Deliver(receiptId: string, response: Response, now: string)
    | Quarantine(receiptId: string, reason: string)

  function RunOf(digest: Digest, b: Box, call: Call): Run {
    match call
    case Enqueue(e, payload, now) => EnqueueRun(digest, b, e, payload, now)
    case Deliver(id, response, now) => DeliverRun(digest, b, id, response, now)
    case Quarantine(id, reason) => OperatorRun(b, id, reason)
  }

  /** A call that is stopped after so many steps; a large number means it is not. */
  datatype Entry = Entry(call: Call, steps: nat)

  function StoppedAfter(b: Box, run: Run, steps: nat): Box { Final(b, run.states[..Min(steps, |run.states|)]) }

  function Next(digest: Digest, b: Box, e: Entry): Box { StoppedAfter(b, RunOf(digest, b, e.call), e.steps) }

  function Along(next: (Box, Entry) -> Box, b: Box, history: seq<Entry>): Box {
    if history == [] then b else next(Along(next, b, history[..|history| - 1]), history[|history| - 1])
  }

  function NextOf(digest: Digest): (Box, Entry) -> Box { (b, e) => Next(digest, b, e) }

  function BoxAfter(digest: Digest, b: Box, history: seq<Entry>): Box { Along(NextOf(digest), b, history) }

  lemma CallIsSound(digest: Digest, b: Box, call: Call, steps: nat)
    requires Sound(digest, b)
    ensures
      var after := StoppedAfter(b, RunOf(digest, b, call), steps);
      Sound(digest, after) && Follows(b, after)
  {
    match call {
      case Enqueue(e, payload, now) => EnqueueIsSound(digest, b, e, payload, now);
      case Deliver(id, response, now) => DeliverIsSound(digest, b, id, response, now);
      case Quarantine(id, reason) => OperatorIsSound(digest, b, id, reason);
    }
    var run := RunOf(digest, b, call);
    var n := Min(steps, |run.states|);
    if n > 0 {
      assert run.states[..n][n - 1] == run.states[n - 1];
    }
  }

  const EMPTY := Box(map[], map[], map[], map[], [])

  lemma {:induction false} HistoryIsSound(digest: Digest, b: Box, history: seq<Entry>)
    requires Sound(digest, b)
    ensures Sound(digest, BoxAfter(digest, b, history)) && Follows(b, BoxAfter(digest, b, history))
  {
    if history != [] {
      var n, e := |history| - 1, history[|history| - 1];
      HistoryIsSound(digest, b, history[..n]);
      CallIsSound(digest, BoxAfter(digest, b, history[..n]), e.call, e.steps);
      FollowsTransitive(b, BoxAfter(digest, b, history[..n]), BoxAfter(digest, b, history));
    }
  }

  lemma {:induction false} AlongSplits(next: (Box, Entry) -> Box, b: Box, history: seq<Entry>, i: nat)
    requires i <= |history|
    ensures Along(next, b, history) == Along(next, Along(next, b, history[..i]), history[i..])
    decreases |history|
  {
    if i == |history| {
      assert history[..i] == history;
    } else {
      var n, rest := |history| - 1, history[i..];
      AlongSplits(next, b, history[..n], i);
      assert history[..n][..i] == history[..i] && history[..n][i..] == rest[..|rest| - 1];
      assert rest[|rest| - 1] == history[n];
    }
  }

  /** Whatever the calls, the Book's answers and the stops: evidence once enqueued stays in a directory,
      unchanged, for the rest of the run, and whatever is acknowledged the Book accepted. */
  lemma EvidenceIsNeverLost(digest: Digest, history: seq<Entry>, i: nat, id: string)
    requires i <= |history| && id in BoxAfter(digest, EMPTY, history[..i]).enqueued
    ensures
      var b := BoxAfter(digest, EMPTY, history);
      var evidence := BoxAfter(digest, EMPTY, history[..i]).enqueued[id];
      && (id in b.pending || id in b.acknowledged || id in b.quarantined)
      && (id in b.pending ==> EvidenceOf(b.pending[id]) == evidence)
      && (id in b.acknowledged ==> EvidenceOf(b.acknowledged[id]) == evidence
                                   && BookAccepted(b.rulings, id, b.acknowledged[id]))
      && (id in b.quarantined ==> EvidenceOf(b.quarantined[id]) == evidence
                                  && RuledOut(b.rulings, id))
  {
    forall k ensures SoundAt(digest, EMPTY, k) {
    }
    HistoryIsSound(digest, EMPTY, history[..i]);
    HistoryIsSound(digest, BoxAfter(digest, EMPTY, history[..i]), history[i..]);
    AlongSplits(NextOf(digest), EMPTY, history, i);
    assert SoundAt(digest, BoxAfter(digest, EMPTY, history), id);
  }

  // ------------------------------------------------------------------ one verdict

  /** The decisions on a receipt, the Book's and the operator's, all point the same way. */
  ghost predicate OneVerdict(rulings: seq<Ruling>, id: string) {
    forall r, s :: r in rulings && s in rulings && r.receiptId == s.receiptId == id ==> !(Accepting(r) && Rejecting(s))
  }

  ghost predicate BookIsSteady(rulings: seq<Ruling>, id: string) {
    forall r, s :: r in rulings && s in rulings && r.receiptId == s.receiptId == id && s.verdict.ByBook? ==>
      !(Accepting(r) && Rejecting(s))
  }

  /** If no decision on a receipt is ever contradicted, no receipt is both acknowledged and quarantined. */
  lemma NeverBoth(digest: Digest, b: Box, id: string)
    requires Sound(digest, b) && OneVerdict(b.rulings, id)
    ensures !(id in b.acknowledged && id in b.quarantined)
  {
    assert SoundAt(digest, b, id);
    if id in b.acknowledged {
      var a := b.acknowledged[id];
      var r := Ruling(id, ByBook(EvidenceOf(a), Answered(a.bookReceipt.value)));
      assert r in b.rulings && Accepting(r);
    }
  }

  /** An operator's quarantine leaves a receipt in both places exactly when it was acknowledged already
      and there was still something to quarantine: a pending copy left by a stop between acknowledging
      and removing it. Quarantine looks at the pending copy alone. */
  lemma QuarantineDoubles(b: Box, id: string, reason: string)
    requires reason != ""
    ensures
      var after := Final(b, OperatorRun(b, id, reason).states);
      id in after.acknowledged && id in after.quarantined
      <==> id in b.acknowledged && (id in b.pending || id in b.quarantined)
  {
  }

  /** A delivery that the Book accepts, stopped before the pending file is removed. */
  lemma LeftoverPending(digest: Digest, b: Box, id: string, a: Acceptance, now: string)
    requires Sound(digest, b) && id in b.pending && a.accepted && a.receiptId == id
    ensures
      var after := StoppedAfter(b, DeliverRun(digest, b, id, Answered(a), now), 3);
      && id in after.acknowledged && id in after.pending
      && after.rulings == b.rulings + [Ruling(id, ByBook(EvidenceOf(b.pending[id]), Answered(a)))]
  {
    assert SoundAt(digest, b, id);
    var run := DeliverRun(digest, b, id, Answered(a), now);
    assert |run.states| == 4 && run.states[..3][2] == run.states[2];
  }

  /** A steady Book is not enough: a receipt the Book accepted, whose pending copy a stop left behind, ends
      in both places when an operator quarantines it. */
  lemma SteadyBookIsNotEnough(digest: Digest, b: Box, id: string, a: Acceptance, now: string, reason: string)
    requires Sound(digest, b) && id in b.pending && a.accepted && a.receiptId == id && reason != ""
    requires forall r :: r in b.rulings ==> r.receiptId != id
    ensures
      var delivered := StoppedAfter(b, DeliverRun(digest, b, id, Answered(a), now), 3);
      var after := Final(delivered, OperatorRun(delivered, id, reason).states);
      BookIsSteady(after.rulings, id) && id in after.acknowledged && id in after.quarantined
  {
    assert SoundAt(digest, b, id);
    LeftoverPending(digest, b, id, a, now);
    var delivered := StoppedAfter(b, DeliverRun(digest, b, id, Answered(a), now), 3);
    QuarantineDoubles(delivered, id, reason);
  }

  /** The same with the roles exchanged: an operator's quarantine stopped before the pending file is removed,
      then an ordinary delivery that the Book accepts. The Book has answered once. */
  lemma QuarantineThenDelivery(digest: Digest, b: Box, id: string, a: Acceptance, now: string, reason: string)
    requires Sound(digest, b) && id in b.pending && a.accepted && a.receiptId == id && reason != ""
    requires forall r :: r in b.rulings ==> r.receiptId != id
    ensures
      var stopped := StoppedAfter(b, OperatorRun(b, id, reason), 1);
      var after := Final(stopped, DeliverRun(digest, stopped, id, Answered(a), now).states);
      && DeliverRun(digest, stopped, id, Answered(a), now).result.Ok?
      && BookIsSteady(after.rulings, id) && Doubled(after, id)
  {
    OperatorIsSound(digest, b, id, reason);
    var run := OperatorRun(b, id, reason);
    var stopped := StoppedAfter(b, run, 1);
    assert run.states[..1][0] == run.states[0];
    assert Sound(digest, stopped);
    assert SoundAt(digest, stopped, id);
    DeliveryDoubles(digest, stopped, id, Answered(a), now);
  }

  // ------------------------------------------------------------------ exactly when

  predicate Definite(response: Response) {
    match response
    case Answered(_) => true
    case Permanent(reason) => reason != ""
    case Trouble(_) => false
  }

  predicate AcceptedBy(id: string, response: Response) {
    response.Answered? && response.acceptance.accepted && response.acceptance.receiptId == id
  }

  predicate Doubled(b: Box, id: string) { id in b.acknowledged && id in b.quarantined }

  /** A pending copy beside a moved one, which any look at the directories shows. */
  predicate Leftover(b: Box, id: string) { id in b.pending && (id in b.acknowledged || id in b.quarantined) }

  datatype Move = ToAcknowledged | ToQuarantined | NoMove

  /** Where a call writes a copy, when it is not stopped before that. */
  function MoveOf(b: Box, e: Entry): Move {
    match e.call
    case Enqueue(_, _, _) => NoMove
    case Deliver(id, response, _) =>
      if id !in b.pending || !Definite(response) || e.steps < 3 then NoMove
      else if AcceptedBy(id, response) then ToAcknowledged else ToQuarantined
    case Quarantine(id, reason) => if id !in b.pending || reason == "" || e.steps < 1 then NoMove else ToQuarantined
  }

  function IdOf(call: Call): string {
    match call
    case Enqueue(e, _, _) => e.receiptId
    case Deliver(id, _, _) => id
    case Quarantine(id, _) => id
  }

  /** The call writes the copy that its receipt does not have yet beside the one it has. */
  predicate Doubles(b: Box, e: Entry, id: string) {
    && IdOf(e.call) == id
    && match MoveOf(b, e)
       case ToAcknowledged => id in b.quarantined && id !in b.acknowledged
       case ToQuarantined => id in b.acknowledged && id !in b.quarantined
       case NoMove => false
  }

  /** An uninterrupted delivery ends in both places exactly when the receipt was in both already, or its
      leftover pending copy is moved to the other place. */
  lemma DeliveryDoubles(digest: Digest, b: Box, id: string, response: Response, now: string)
    requires Sound(digest, b)
    ensures
      var after := Final(b, DeliverRun(digest, b, id, response, now).states);
      Doubled(after, id) <==>
        || Doubled(b, id)
        || (id in b.pending && id in b.quarantined && AcceptedBy(id, response))
        || (id in b.pending && id in b.acknowledged && Definite(response) && !AcceptedBy(id, response))
  {
    assert SoundAt(digest, b, id);
  }

  lemma EnqueueMovesNothing(digest: Digest, b: Box, e: Envelope, payload: string, now: string, steps: nat)
    ensures
      var after := StoppedAfter(b, EnqueueRun(digest, b, e, payload, now), steps);
      after.acknowledged == b.acknowledged && after.quarantined == b.quarantined
  {
  }

  lemma OperatorMoves(b: Box, id: string, reason: string, steps: nat)
    ensures
      var after := StoppedAfter(b, OperatorRun(b, id, reason), steps);
      && after.acknowledged == b.acknowledged
      && after.quarantined.Keys == b.quarantined.Keys
           + if id in b.pending && reason != "" && steps >= 1 then {id} else {}
  {
    var run := OperatorRun(b, id, reason);
    if 0 < Min(steps, |run.states|) {
      assert run.states[..Min(steps, |run.states|)][Min(steps, |run.states|) - 1] == run.states[Min(steps, |run.states|) - 1];
    }
  }

  lemma StoppedAt(b: Box, run: Run, steps: nat)
    ensures StoppedAfter(b, run, steps) == if run.states == [] || steps == 0 then b else run.states[Min(steps, |run.states|) - 1]
  {
    var n := Min(steps, |run.states|);
    if n > 0 {
      assert run.states[..n][n - 1] == run.states[n - 1];
    }
  }

  lemma DeliveryMoves(digest: Digest, b: Box, id: string, response: Response, now: string, steps: nat)
    requires Sound(digest, b)
    ensures
      var after := StoppedAfter(b, DeliverRun(digest, b, id, response, now), steps);
      var move := MoveOf(b, Entry(Deliver(id, response, now), steps));
      && after.acknowledged.Keys == b.acknowledged.Keys + (if move.ToAcknowledged? then {id} else {})
      && after.quarantined.Keys == b.quarantined.Keys + (if move.ToQuarantined? then {id} else {})
  {
    assert SoundAt(digest, b, id);
    StoppedAt(b, DeliverRun(digest, b, id, response, now), steps);
    if id in b.pending {
      SettledStates(b, id, response, now, b.rulings + [Ruling(id, ByBook(EvidenceOf(b.pending[id]), response))]);
    }
  }

  /** After the attempt is written and the Book has answered, what is written moves the receipt at once. */
  lemma SettledStates(b: Box, id: string, response: Response, now: string, rulings: seq<Ruling>)
    requires id in b.pending
    ensures
      var answered := b.(pending := b.pending[id := Attempted(b.pending[id], now)], rulings := rulings);
      forall i :: 0 <= i < |SettleRun(answered, id, response, now).states| ==>
        var here := SettleRun(answered, id, response, now).states[i];
        && here.acknowledged.Keys == b.acknowledged.Keys
             + (if Definite(response) && AcceptedBy(id, response) then {id} else {})
        && here.quarantined.Keys == b.quarantined.Keys
             + (if Definite(response) && !AcceptedBy(id, response) then {id} else {})
  {
  }

  /** One call, stopped anywhere or not: a receipt is in both places afterwards exactly when it was before, or
      the call moves a leftover pending copy of it to the other place. */
  lemma CallDoublesExactly(digest: Digest, b: Box, e: Entry, id: string)
    requires Sound(digest, b)
    ensures Doubled(Next(digest, b, e), id) <==> Doubled(b, id) || Doubles(b, e, id)
  {
    var after := Next(digest, b, e);
    match e.call {
      case Enqueue(envelope, payload, now) => EnqueueMovesNothing(digest, b, envelope, payload, now, e.steps);
      case Deliver(k, response, now) => DeliveryMoves(digest, b, k, response, now, e.steps);
      case Quarantine(k, reason) => OperatorMoves(b, k, reason, e.steps);
    }
    assert id in after.acknowledged <==> id in after.acknowledged.Keys;
    assert id in after.quarantined <==> id in after.quarantined.Keys;
  }

  lemma {:induction false} AlongOneMore(next: (Box, Entry) -> Box, b: Box, history: seq<Entry>, i: nat)
    requires i < |history|
    ensures Along(next, b, history[..i + 1]) == next(Along(next, b, history[..i]), history[i])
  {
    assert history[..i + 1][..i] == history[..i];
  }

  /** A fact that a step brings about exactly when it is of the causing kind, and that then stays. */
  lemma {:induction false} HoldsAlong(next: (Box, Entry) -> Box, holds: Box -> bool, causes: (Box, Entry) -> bool,
                                      b: Box, history: seq<Entry>, n: nat)
    requires n <= |history| && !holds(b)
    requires forall i :: 0 <= i < |history| ==>
      (holds(Along(next, b, history[..i + 1]))
       <==> holds(Along(next, b, history[..i])) || causes(Along(next, b, history[..i]), history[i]))
    ensures holds(Along(next, b, history[..n])) <==> exists i :: 0 <= i < n && causes(Along(next, b, history[..i]), history[i])
  {
    if n > 0 {
      HoldsAlong(next, holds, causes, b, history, n - 1);
      assert holds(Along(next, b, history[..(n - 1) + 1]))
        <==> holds(Along(next, b, history[..n - 1])) || causes(Along(next, b, history[..n - 1]), history[n - 1]);
    }
  }

  lemma StepDoublesExactly(digest: Digest, history: seq<Entry>, id: string, i: nat)
    requires i < |history|
    ensures Doubled(BoxAfter(digest, EMPTY, history[..i + 1]), id)
      <==> Doubled(BoxAfter(digest, EMPTY, history[..i]), id) || Doubles(BoxAfter(digest, EMPTY, history[..i]), history[i], id)
  {
    EmptyIsSound(digest);
    HistoryIsSound(digest, EMPTY, history[..i]);
    AlongOneMore(NextOf(digest), EMPTY, history, i);
    CallDoublesExactly(digest, BoxAfter(digest, EMPTY, history[..i]), history[i], id);
  }

  /** Whatever the history: a receipt ends in both places exactly when some call moved a leftover pending copy
      of it to the other place. */
  lemma DoubledExactly(digest: Digest, history: seq<Entry>, id: string)
    ensures Doubled(BoxAfter(digest, EMPTY, history), id)
      <==> exists i :: 0 <= i < |history| && Doubles(BoxAfter(digest, EMPTY, history[..i]), history[i], id)
  {
    var next, holds, causes := NextOf(digest), (b: Box) => Doubled(b, id), (b: Box, e: Entry) => Doubles(b, e, id);
    forall i | 0 <= i < |history|
      ensures holds(Along(next, EMPTY, history[..i + 1]))
        <==> holds(Along(next, EMPTY, history[..i])) || causes(Along(next, EMPTY, history[..i]), history[i])
    {
      StepDoublesExactly(digest, history, id, i);
    }
    HoldsAlong(next, holds, causes, EMPTY, history, |history|);
    assert history[..|history|] == history;
  }

  lemma EmptyIsSound(digest: Digest)
    ensures Sound(digest, EMPTY)
  {
    forall k ensures SoundAt(digest, EMPTY, k) {
    }
  }

  /** What a caller can check before a call is the exact guard: only a call on a leftover can put its receipt
      in both places, and on a leftover in one place some answer of the Book does. */
  lemma LeftoverIsTheGuard(b: Box, id: string, now: string)
    ensures forall e :: Doubles(b, e, id) ==> Leftover(b, id)
    ensures Leftover(b, id) && !Doubled(b, id) ==>
      exists response :: Doubles(b, Entry(Deliver(id, response, now), 3), id)
  {
    if Leftover(b, id) && !Doubled(b, id) {
      var response := if id in b.quarantined then Answered(Acceptance(id, 1, "", "", true, false)) else Permanent("refused");
      assert Doubles(b, Entry(Deliver(id, response, now), 3), id);
    }
  }

  /** If every call finds no leftover of its receipt, no receipt is ever in both places, whatever the Book
      and the operators decide. */
  lemma CheckedCallsNeverDouble(digest: Digest, history: seq<Entry>, id: string)
    requires forall i :: 0 <= i < |history| ==> !Leftover(BoxAfter(digest, EMPTY, history[..i]), IdOf(history[i].call))
    ensures !Doubled(BoxAfter(digest, EMPTY, history), id)
  {
    DoubledExactly(digest, history, id);
    forall i | 0 <= i < |history| ensures !Doubles(BoxAfter(digest, EMPTY, history[..i]), history[i], id) {
      LeftoverIsTheGuard(BoxAfter(digest, EMPTY, history[..i]), id, "");
    }
  }

  /** Every receipt in one place at most. */
  ghost predicate OnePlace(b: Box) {
    forall k :: !Leftover(b, k) && !Doubled(b, k)
  }

  lemma UninterruptedKeepsOnePlace(digest: Digest, b: Box, e: Entry)
    requires Sound(digest, b) && OnePlace(b) && e.steps >= 4
    ensures OnePlace(Next(digest, b, e))
  {
    var after := Next(digest, b, e);
    forall k ensures !Leftover(after, k) && !Doubled(after, k) {
      assert SoundAt(digest, b, k) && SoundAt(digest, b, IdOf(e.call)) && !Leftover(b, k) && !Doubled(b, k);
      CallDoublesExactly(digest, b, e, k);
      UninterruptedLeavesNone(digest, b, e, k);
    }
  }

  lemma UninterruptedLeavesNone(digest: Digest, b: Box, e: Entry, k: string)
    requires SoundAt(digest, b, IdOf(e.call)) && !Leftover(b, k) && e.steps >= 4
    ensures !Leftover(Next(digest, b, e), k)
  {
    StoppedAt(b, RunOf(digest, b, e.call), e.steps);
    match e.call {
      case Enqueue(envelope, payload, now) =>
      case Deliver(id, response, now) => DeliveryLeavesNone(digest, b, id, response, now, k);
      case Quarantine(id, reason) =>
    }
  }

  lemma DeliveryLeavesNone(digest: Digest, b: Box, id: string, response: Response, now: string, k: string)
    requires SoundAt(digest, b, id) && !Leftover(b, k)
    ensures |DeliverRun(digest, b, id, response, now).states| <= 4
    ensures !Leftover(Final(b, DeliverRun(digest, b, id, response, now).states), k)
  {
  }

  /** So leftovers come from stops alone: without any, every receipt stays in one place at most. */
  lemma {:induction false} UninterruptedNeverDoubles(digest: Digest, history: seq<Entry>)
    requires forall i :: 0 <= i < |history| ==> history[i].steps >= 4
    ensures OnePlace(BoxAfter(digest, EMPTY, history))
  {
    if history != [] {
      var n := |history| - 1;
      UninterruptedNeverDoubles(digest, history[..n]);
      EmptyIsSound(digest);
      HistoryIsSound(digest, EMPTY, history[..n]);
      UninterruptedKeepsOnePlace(digest, BoxAfter(digest, EMPTY, history[..n]), history[n]);
    } else {
      forall k ensures !Leftover(EMPTY, k) && !Doubled(EMPTY, k) {
      }
    }
  }

  // ------------------------------------------------------------------ later calls

  /** An uninterrupted delivery that gets a definite answer clears the pending copy, also one left over
      from an earlier stop; where it moves the receipt follows the answer. */
  lemma DeliveryClears(digest: Digest, b: Box, id: string, response: Response, now: string)
    requires Sound(digest, b) && id in b.pending
    ensures
      var run := DeliverRun(digest, b, id, response, now);
      var after := Final(b, run.states);
      && (id !in after.pending <==> Definite(response))
      && (Definite(response) ==> run.result.Ok?)
      && (Definite(response) && Accepting(Ruling(id, ByBook(EvidenceOf(b.pending[id]), response))) ==> id in after.acknowledged)
      && (Definite(response) && !Accepting(Ruling(id, ByBook(EvidenceOf(b.pending[id]), response))) ==> id in after.quarantined)
  {
    assert SoundAt(digest, b, id);
  }

  /** Enqueueing the same evidence again changes nothing; other evidence under the id is refused. */
  lemma EnqueueIsIdempotent(digest: Digest, b: Box, e: Envelope, payload: string, now: string)
    requires Sound(digest, b) && e.receiptId in b.enqueued && EnqueueFault(digest, e, payload).None?
    ensures EnqueueRun(digest, b, e, payload, now).states == []
    ensures b.enqueued[e.receiptId] == Evidence(e, payload) ==> EnqueueRun(digest, b, e, payload, now).result.Ok?
    ensures DigestInjective(digest) && b.enqueued[e.receiptId] != Evidence(e, payload) ==>
      EnqueueRun(digest, b, e, payload, now).result == Err(OutboxConflict)
  {
    assert SoundAt(digest, b, e.receiptId);
    var was := b.enqueued[e.receiptId];
    if DigestInjective(digest) && was != Evidence(e, payload) {
      assert PayloadBytes(was.payload) != PayloadBytes(payload) || EnvelopeBytes(was.envelope) != EnvelopeBytes(e);
    }
  }
}

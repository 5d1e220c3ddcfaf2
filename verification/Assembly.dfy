/** The producer side of Z8: autonomous_kernel/assembly/adaptive.py and assembly/service.py. */
module Assembly {
  import opened Prelude
  import opened Sorting
  import opened Evidence
  import opened Competence
  import opened CompetenceProfiles
  import opened Weighting
  import opened RoundedClosure
  import opened RoundedForecast

  datatype JournalEntry = JournalEntry(prediction: Prediction, journaledAt: int)

  /** The durable evidence an assembly is grounded in. */
  datatype World = World(predictions: seq<JournalEntry>, outcomes: seq<Outcome>, events: seq<ModelEvent>)

  datatype Fault =
    | NegativeTime | NoComponents | NotDurable(id: string) | DiffersFromJournal(id: string)
    | JournaledAfterAssembly(id: string) | CutoffAfterAssembly
    | TooFewComponents | NotSingleModel | DuplicateModel | WrongInstrument | WrongRepresentation
    | WrongStatus | ContractMismatch | CreatedInFuture | UnqualifiedRepresentation | AfterResolution
    | NotRegistered | UnsupportedContract | NotEligible | AmbiguousProfiles | BadSampleStrength
    | SkillFault(error: SkillError) | UnavailableFrame | PrecedesKnowledge | NoTargetPrice
    | JournaledTooLate | IdTaken | JournalInvalid | LineageInvalid | ReceiptConflict

  // ------------------------------------------------------------------ the prediction journal

  function Predictions(journal: seq<JournalEntry>): seq<Prediction> {
    seq(|journal|, i requires 0 <= i < |journal| => journal[i].prediction)
  }

  ghost predicate UniqueIds(journal: seq<JournalEntry>) {
    forall i, j :: 0 <= i < j < |journal| ==> journal[i].prediction.predictionId != journal[j].prediction.predictionId
  }

  ghost predicate ValidEntry(e: JournalEntry) {
    && ValidPrediction(e.prediction)
    && e.journaledAt >= e.prediction.createdAt
    && (e.prediction.mode.PROSPECTIVE_SHADOW? ==> e.journaledAt < e.prediction.resolvesAt)
  }

  ghost predicate ValidJournal(journal: seq<JournalEntry>) {
    UniqueIds(journal) && forall i :: 0 <= i < |journal| ==> ValidEntry(journal[i])
  }

  /** Reading the journal into a dictionary by id: the last entry with the id. */
  function Lookup(journal: seq<JournalEntry>, id: string): (e: Option<JournalEntry>)
    ensures e.Some? ==> e.value in journal && e.value.prediction.predictionId == id
  {
    if journal == [] then None
    else if journal[|journal| - 1].prediction.predictionId == id then Some(journal[|journal| - 1])
    else Lookup(journal[..|journal| - 1], id)
  }

  lemma {:induction false} LookupFinds(journal: seq<JournalEntry>, i: nat)
    requires UniqueIds(journal) && i < |journal|
    ensures Lookup(journal, journal[i].prediction.predictionId) == Some(journal[i])
  {
    if i < |journal| - 1 {
      LookupFinds(journal[..|journal| - 1], i);
    }
  }

  lemma {:induction false} LookupGrowth(journal: seq<JournalEntry>, extra: seq<JournalEntry>, id: string)
    requires UniqueIds(journal + extra) && Lookup(journal, id).Some?
    ensures Lookup(journal + extra, id) == Lookup(journal, id)
  {
    if extra == [] {
      assert journal + extra == journal;
    } else {
      var n := |extra| - 1;
      var whole := journal + extra;
      assert whole[..|whole| - 1] == journal + extra[..n];
      var e := Lookup(journal, id).value;
      var k :| 0 <= k < |journal| && journal[k] == e;
      assert whole[k] == e && whole[|whole| - 1] == extra[n];
      LookupGrowth(journal, extra[..n], id);
    }
  }

  /** PredictionJournal.append: idempotent on the same content, refused on an id taken by other content. */
  function Append(journal: seq<JournalEntry>, p: Prediction, journaledAt: int): Result<seq<JournalEntry>, Fault> {
    if journaledAt < p.createdAt || (p.mode.PROSPECTIVE_SHADOW? && journaledAt >= p.resolvesAt) then Err(JournaledTooLate)
    else
      var existing := Lookup(journal, p.predictionId);
      if existing.None? then Ok(journal + [JournalEntry(p, journaledAt)])
      else if existing.value.prediction == p then Ok(journal)
      else Err(IdTaken)
  }

  lemma {:induction false} LookupMisses(journal: seq<JournalEntry>, id: string)
    requires Lookup(journal, id).None?
    ensures forall i :: 0 <= i < |journal| ==> journal[i].prediction.predictionId != id
  {
    if journal != [] {
      LookupMisses(journal[..|journal| - 1], id);
      assert forall i :: 0 <= i < |journal| - 1 ==> journal[i] == journal[..|journal| - 1][i];
    }
  }

  lemma {:induction false} OneMoreEntry(journal: seq<JournalEntry>, e: JournalEntry)
    requires UniqueIds(journal) && Lookup(journal, e.prediction.predictionId).None?
    ensures UniqueIds(journal + [e]) && Lookup(journal + [e], e.prediction.predictionId) == Some(e)
    ensures ValidJournal(journal) && ValidEntry(e) ==> ValidJournal(journal + [e])
  {
    LookupMisses(journal, e.prediction.predictionId);
    var after := journal + [e];
    assert after[..|after| - 1] == journal;
  }

  /** Appending keeps the journal valid, makes the prediction findable and never rewrites an entry. */
  lemma AppendKeepsJournal(journal: seq<JournalEntry>, p: Prediction, journaledAt: int)
    requires UniqueIds(journal) && Append(journal, p, journaledAt).Ok?
    ensures
      var after := Append(journal, p, journaledAt).value;
      && UniqueIds(after) && journal <= after && |after| <= |journal| + 1
      && Lookup(after, p.predictionId).Some? && Lookup(after, p.predictionId).value.prediction == p
      && Append(after, p, journaledAt) == Ok(after)
      && (ValidJournal(journal) && ValidPrediction(p) ==> ValidJournal(after))
  {
    var after := Append(journal, p, journaledAt).value;
    if Lookup(journal, p.predictionId).None? {
      OneMoreEntry(journal, JournalEntry(p, journaledAt));
    }
  }

  // ------------------------------------------------------------------ the model registry as of a time

  datatype ModelRecord = ModelRecord(
    modelRef: string, state: ModelState, definition: ModelDefinition,
    definitionHash: string, artifactHash: string, eventHash: string, updatedAt: int)

  function RecordAfter(record: Option<ModelRecord>, e: ModelEvent, modelRef: string, asOf: int): Option<ModelRecord> {
    if e.modelRef != modelRef || e.occurredAt > asOf then record
    else match e.change
      case Registered(definition, definitionHash, artifactHash) =>
        Some(ModelRecord(modelRef, CANDIDATE, definition, definitionHash, artifactHash, e.eventHash, e.occurredAt))
      case Transitioned(toState) =>
        if record.None? then None
        else Some(record.value.(state := toState, eventHash := e.eventHash, updatedAt := e.occurredAt))
  }

  function RecordAt(events: seq<ModelEvent>, modelRef: string, asOf: int): Option<ModelRecord> {
    if events == [] then None
    else RecordAfter(RecordAt(events[..|events| - 1], modelRef, asOf), events[|events| - 1], modelRef, asOf)
  }

  /** _registry_record_at of adaptive.py: one pass that replaces or updates the record. */
  method RegistryRecordAt(events: seq<ModelEvent>, modelRef: string, asOf: int) returns (record: Option<ModelRecord>)
    ensures record == RecordAt(events, modelRef, asOf)
  {
    record := None;
    var i := 0;
    while i < |events|
      invariant 0 <= i <= |events| && record == RecordAt(events[..i], modelRef, asOf)
    {
      assert events[..i + 1][..i] == events[..i];
      var e := events[i];
      if e.modelRef == modelRef && e.occurredAt <= asOf {
        if e.change.Registered? {
          record := Some(ModelRecord(modelRef, CANDIDATE, e.change.definition, e.change.definitionHash,
                                     e.change.artifactHash, e.eventHash, e.occurredAt));
        } else if record.Some? {
          record := Some(record.value.(state := e.change.toState, eventHash := e.eventHash, updatedAt := e.occurredAt));
        }
      }
      i := i + 1;
    }
    assert events[..i] == events;
  }

  lemma {:induction false} RecordGrowth(events: seq<ModelEvent>, extra: seq<ModelEvent>, modelRef: string, asOf: int)
    requires forall i :: 0 <= i < |extra| ==> extra[i].occurredAt > asOf
    ensures RecordAt(events + extra, modelRef, asOf) == RecordAt(events, modelRef, asOf)
  {
    if extra == [] {
      assert events + extra == events;
    } else {
      var n := |extra| - 1;
      assert (events + extra)[..|events + extra| - 1] == events + extra[..n];
      RecordGrowth(events, extra[..n], modelRef, asOf);
    }
  }

  predicate EligibleState(state: ModelState, mode: Mode) {
    if mode.PROSPECTIVE_SHADOW? then state in {SHADOW, MODEL_QUALIFIED}
    else state !in {QUARANTINED, SUPERSEDED}
  }

  // ------------------------------------------------------------------ choosing a profile

  predicate InSegment(profile: Profile, p: Prediction)
    requires p.modelRefs != []
  {
    && profile.segment.modelRef == p.modelRefs[0]
    && profile.segment.instrumentId == p.instrument.canonicalId
    && profile.segment.horizon == p.horizon
    && profile.segment.targetMetric == p.targetMetric
    && profile.segment.evidenceClass == p.evidenceClass
  }

  function Candidates(profiles: seq<Profile>, p: Prediction, componentHash: string, latest: int): seq<Profile>
    requires p.modelRefs != []
  {
    if profiles == [] then []
    else
      var last := profiles[|profiles| - 1];
      Candidates(profiles[..|profiles| - 1], p, componentHash, latest)
      + (if InSegment(last, p) && last.asOf <= latest && componentHash !in last.predictionHashes then [last] else [])
  }

  function LatestAsOf(profiles: seq<Profile>): int
    requires profiles != []
  {
    if |profiles| == 1 then profiles[0].asOf
    else Max(LatestAsOf(profiles[..|profiles| - 1]), profiles[|profiles| - 1].asOf)
  }

  function OfTime(profiles: seq<Profile>, asOf: int): seq<Profile> {
    if profiles == [] then []
    else
      var last := profiles[|profiles| - 1];
      OfTime(profiles[..|profiles| - 1], asOf) + (if last.asOf == asOf then [last] else [])
  }

  lemma {:induction false} OfLatestTime(profiles: seq<Profile>)
    requires profiles != []
    ensures OfTime(profiles, LatestAsOf(profiles)) != []
  {
    if |profiles| > 1 {
      OfLatestTime(profiles[..|profiles| - 1]);
    }
  }

  predicate SameHash(hash: Hash, profiles: seq<Profile>) {
    forall i, j :: 0 <= i < |profiles| && 0 <= j < |profiles| ==>
      hash(ProfileBody(profiles[i])) == hash(ProfileBody(profiles[j]))
  }

  /** The latest matching profile that does not count the component itself. */
  function SelectProfile(hash: Hash, profiles: seq<Profile>, p: Prediction, assemblyAt: int): Result<Option<Profile>, Fault>
    requires p.modelRefs != []
  {
    var candidates := Candidates(profiles, p, hash(PredictionBody(p)), assemblyAt);
    if candidates == [] then Ok(None)
    else
      OfLatestTime(candidates);
      var latest := OfTime(candidates, LatestAsOf(candidates));
      if SameHash(hash, latest) then Ok(Some(latest[|latest| - 1])) else Err(AmbiguousProfiles)
  }

  // ------------------------------------------------------------------ components

  /** Python's order on tuples of text. */
  predicate RefsLe(a: seq<string>, b: seq<string>) {
    if a == [] then true
    else if b == [] then false
    else if a[0] == b[0] then RefsLe(a[1..], b[1..])
    else TextLe(a[0], b[0])
  }

  predicate ComponentLe(a: Prediction, b: Prediction) { RefsLe(a.modelRefs, b.modelRefs) }

  predicate SameContract(p: Prediction, first: Prediction) {
    && p.mode == first.mode && p.evidenceClass == first.evidenceClass
    && p.predictionAt == first.predictionAt && p.horizon == first.horizon
    && p.resolvesAt == first.resolvesAt && p.targetMetric == first.targetMetric
    && p.referencePrice == first.referencePrice
  }

  function ComponentFault(hash: Hash, frame: Frame, p: Prediction, first: Prediction,
                          earlier: seq<Prediction>, assemblyAt: int): Option<Fault> {
    if |p.modelRefs| != 1 then Some(NotSingleModel)
    else if exists i :: 0 <= i < |earlier| && p.modelRefs[0] in earlier[i].modelRefs then Some(DuplicateModel)
    else if p.instrument != frame.instrument then Some(WrongInstrument)
    else if p.frameId != frame.frameId || p.frameHash != hash(FrameBody(frame)) then Some(WrongRepresentation)
    else if p.frameStatus != frame.status then Some(WrongStatus)
    else if !SameContract(p, first) then Some(ContractMismatch)
    else if p.createdAt > assemblyAt then Some(CreatedInFuture)
    else None
  }

  function FirstFault(hash: Hash, frame: Frame, ordered: seq<Prediction>, n: nat, assemblyAt: int): Option<Fault>
    requires n <= |ordered|
  {
    if n == 0 then None
    else
      var before := FirstFault(hash, frame, ordered, n - 1, assemblyAt);
      if before.Some? then before
      else ComponentFault(hash, frame, ordered[n - 1], ordered[0], ordered[..n - 1], assemblyAt)
  }

  function ValidatedComponents(hash: Hash, frame: Frame, predictions: seq<Prediction>, assemblyAt: int)
    : Result<seq<Prediction>, Fault>
  {
    if |predictions| < 2 then Err(TooFewComponents)
    else
      SortedPermutes(predictions, ComponentLe);
      var ordered := Sorted(predictions, ComponentLe);
      match FirstFault(hash, frame, ordered, |ordered|, assemblyAt)
      case Some(f) => Err(f)
      case None =>
        if ordered[0].mode.PROSPECTIVE_SHADOW? && !frame.status.QUALIFIED? then Err(UnqualifiedRepresentation)
        else if ordered[0].mode.PROSPECTIVE_SHADOW? && assemblyAt >= ordered[0].resolvesAt then Err(AfterResolution)
        else Ok(ordered)
  }

  // ------------------------------------------------------------------ provisional items

  datatype Provisional = Provisional(prediction: Prediction, record: ModelRecord, profile: Option<Profile>)

  predicate SupportsContract(d: ModelDefinition, p: Prediction, frame: Frame) {
    && d.requiredRepresentationType == frame.representationType
    && d.targetMetric == p.targetMetric
    && p.horizon in d.supportedHorizons
  }

  function ProvisionalOf(hash: Hash, frame: Frame, p: Prediction, profiles: seq<Profile>,
                         events: seq<ModelEvent>, assemblyAt: int): Result<Provisional, Fault>
    requires |p.modelRefs| == 1
  {
    var record := RecordAt(events, p.modelRefs[0], assemblyAt);
    if record.None? then Err(NotRegistered)
    else if !SupportsContract(record.value.definition, p, frame) then Err(UnsupportedContract)
    else if !EligibleState(record.value.state, p.mode) then Err(NotEligible)
    else match SelectProfile(hash, profiles, p, assemblyAt)
      case Err(f) => Err(f)
      case Ok(profile) =>
        if profile.Some? && !(0.0 <= profile.value.metrics.sampleStrength <= 1.0) then Err(BadSampleStrength)
        else Ok(Provisional(p, record.value, profile))
  }

  function ProvisionalAll(hash: Hash, frame: Frame, components: seq<Prediction>, profiles: seq<Profile>,
                          events: seq<ModelEvent>, assemblyAt: int): (r: Result<seq<Provisional>, Fault>)
    requires forall i :: 0 <= i < |components| ==> |components[i].modelRefs| == 1
    ensures r.Ok? ==> |r.value| == |components| && forall i :: 0 <= i < |components| ==>
      ProvisionalOf(hash, frame, components[i], profiles, events, assemblyAt) == Ok(r.value[i])
  {
    if components == [] then Ok([])
    else
      var n := |components| - 1;
      match ProvisionalAll(hash, frame, components[..n], profiles, events, assemblyAt)
      case Err(f) => Err(f)
      case Ok(items) =>
        match ProvisionalOf(hash, frame, components[n], profiles, events, assemblyAt)
        case Err(f) => Err(f)
        case Ok(item) => Ok(items + [item])
  }

  function Diagnostics(items: seq<Provisional>): seq<Diagnostic> {
    seq(|items|, i requires 0 <= i < |items| => DiagnosticOf(items[i].profile))
  }

  function Skills(diagnostics: seq<Diagnostic>, scale: Option<real>): (r: Result<seq<Option<real>>, Fault>)
    ensures r.Ok? ==> |r.value| == |diagnostics| && forall i :: 0 <= i < |diagnostics| ==>
      Skill(diagnostics[i], scale) == Ok(r.value[i])
  {
    if diagnostics == [] then Ok([])
    else
      var n := |diagnostics| - 1;
      match Skills(diagnostics[..n], scale)
      case Err(f) => Err(f)
      case Ok(earlier) =>
        match Skill(diagnostics[n], scale)
        case Err(e) => Err(SkillFault(e))
        case Ok(skill) => Ok(earlier + [skill])
  }

  function RawScores(diagnostics: seq<Diagnostic>, skills: seq<Option<real>>): (s: seq<real>)
    requires |diagnostics| == |skills|
    ensures |s| == |skills| && forall i :: 0 <= i < |s| ==> 0.5 <= s[i] <= 1.5
  {
    seq(|skills|, i requires 0 <= i < |skills| => RawScore(diagnostics[i].sampleStrength, skills[i]))
  }

  // ------------------------------------------------------------------ the assembled prediction

  function ExpectedMoves(items: seq<Provisional>): seq<real> {
    seq(|items|, i requires 0 <= i < |items| => items[i].prediction.expectedMove)
  }

  function Probabilities(items: seq<Provisional>): seq<real> {
    seq(|items|, i requires 0 <= i < |items| => items[i].prediction.probabilityPositive)
  }

  function ModelRefs(items: seq<Provisional>): seq<string>
    requires forall i :: 0 <= i < |items| ==> |items[i].prediction.modelRefs| == 1
  {
    seq(|items|, i requires 0 <= i < |items| => items[i].prediction.modelRefs[0])
  }

  /** The conservative envelope: only when every component has an interval. */
  function Widest(intervals: seq<Option<Interval>>): Option<Interval> {
    if intervals == [] then None
    else
      var n := |intervals| - 1;
      var mine := intervals[n];
      if n == 0 || mine.None? then mine
      else match Widest(intervals[..n])
        case None => None
        case Some(e) => Some(Interval(MinReal(e.low, mine.value.low), MaxReal(e.high, mine.value.high)))
  }

  lemma {:induction false} WidestCovers(intervals: seq<Option<Interval>>, i: nat)
    requires i < |intervals| && Widest(intervals).Some?
    ensures intervals[i].Some?
    ensures Widest(intervals).value.low <= intervals[i].value.low && intervals[i].value.high <= Widest(intervals).value.high
  {
    var n := |intervals| - 1;
    if i < n {
      WidestCovers(intervals[..n], i);
    }
  }

  function Intervals(items: seq<Provisional>): seq<Option<Interval>> {
    seq(|items|, i requires 0 <= i < |items| => items[i].prediction.interval)
  }

  function Envelope(items: seq<Provisional>): Option<Interval> { Widest(Intervals(items)) }

  function Short(hash: string): string { if |hash| <= 32 then hash else hash[..32] }

  /** create_prediction: copies its arguments, takes price and identity from the frame. */
  function CreatePrediction(hash: Hash, frame: Frame, mode: Mode, predictionAt: int, createdAt: int, horizon: int,
                            expectedMove: real, probability: real, interval: Option<Interval>, refs: seq<string>)
    : Result<Prediction, Fault>
  {
    if frame.status.UNAVAILABLE? then Err(UnavailableFrame)
    else if predictionAt < frame.knownAt then Err(PrecedesKnowledge)
    else match TargetPrice(frame)
      case None => Err(NoTargetPrice)
      case Some(price) =>
        var material := PredictionMaterial(hash(FrameBody(frame)), mode, predictionAt, createdAt, horizon,
                                           expectedMove, probability, interval, refs);
        Ok(Prediction("PRED-" + Short(hash(material)), mode, ClassOf(mode), frame.instrument, frame.frameId,
                      hash(FrameBody(frame)), frame.status, predictionAt, createdAt, horizon, predictionAt + horizon,
                      TARGET_METRIC, price, expectedMove, probability, interval, refs))
  }

  function ContributorOf(hash: Hash, item: Provisional, skill: Option<real>, score: real, weight: real): Contributor
    requires |item.prediction.modelRefs| == 1
  {
    var d := DiagnosticOf(item.profile);
    Contributor(
      item.prediction.modelRefs[0], item.record.state, item.record.eventHash,
      item.record.definitionHash, item.record.artifactHash,
      item.prediction.predictionId, hash(PredictionBody(item.prediction)),
      if item.profile.None? then None else Some(hash(ProfileBody(item.profile.value))),
      if item.profile.None? then None else Some(item.profile.value.asOf),
      if item.profile.None? then NO_PRIOR_MATCHED_COMPETENCE else MATCHED,
      None, d.resolvedCount, d.sampleStrength, skill, d.meanAbsoluteError, score, weight)
  }

  function ReceiptOf(hash: Hash, frame: Frame, assembled: Prediction, assemblyAt: int,
                     contributors: seq<Contributor>): Receipt {
    var assembledHash := hash(PredictionBody(assembled));
    Receipt("ASM-" + Short(hash(ReceiptMaterial(assemblyAt, assembledHash, contributors))), assemblyAt,
            assembled.mode, assembled.evidenceClass, frame.frameId, hash(FrameBody(frame)),
            assembled.predictionAt, assembled.horizon, assembled.resolvesAt, assembled.targetMetric,
            assembled.predictionId, assembledHash, contributors)
  }

  /** From the provisional items on, everything is determined. */
  function Combine(hash: Hash, frame: Frame, items: seq<Provisional>, assemblyAt: int): Result<(Prediction, Receipt), Fault>
    requires items != [] && forall i :: 0 <= i < |items| ==> |items[i].prediction.modelRefs| == 1
  {
    var diagnostics := Diagnostics(items);
    match Skills(diagnostics, ErrorScale(diagnostics))
    case Err(f) => Err(f)
    case Ok(skills) =>
      var scores := RawScores(diagnostics, skills);
      TotalIsPositive(scores);
      var weights, first := RoundedWeights(scores), items[0].prediction;
      match CreatePrediction(hash, frame, first.mode, first.predictionAt, assemblyAt, first.horizon,
                             Forecast(ExpectedMoves(items), weights), Forecast(Probabilities(items), weights),
                             Envelope(items), ModelRefs(items))
      case Err(f) => Err(f)
      case Ok(assembled) =>
        var contributors := seq(|items|, i requires 0 <= i < |items| =>
          ContributorOf(hash, items[i], skills[i], scores[i], weights[i]));
        Ok((assembled, ReceiptOf(hash, frame, assembled, assemblyAt, contributors)))
  }

  lemma {:induction false} NoFaultMeans(hash: Hash, frame: Frame, ordered: seq<Prediction>, n: nat, assemblyAt: int)
    requires n <= |ordered| && FirstFault(hash, frame, ordered, n, assemblyAt).None?
    ensures forall i :: 0 <= i < n ==>
      ComponentFault(hash, frame, ordered[i], ordered[0], ordered[..i], assemblyAt).None?
  {
    if n > 0 {
      NoFaultMeans(hash, frame, ordered, n - 1, assemblyAt);
    }
  }

  lemma ComponentsAreSingle(hash: Hash, frame: Frame, predictions: seq<Prediction>, assemblyAt: int)
    requires ValidatedComponents(hash, frame, predictions, assemblyAt).Ok?
    ensures
      var ordered := ValidatedComponents(hash, frame, predictions, assemblyAt).value;
      && |ordered| == |predictions| >= 2
      && forall i :: 0 <= i < |ordered| ==>
           |ordered[i].modelRefs| == 1
           && ComponentFault(hash, frame, ordered[i], ordered[0], ordered[..i], assemblyAt).None?
  {
    SortedPermutes(predictions, ComponentLe);
    var ordered := Sorted(predictions, ComponentLe);
    NoFaultMeans(hash, frame, ordered, |ordered|, assemblyAt);
  }

  /** assemble_prediction. */
  function Assemble(hash: Hash, frame: Frame, predictions: seq<Prediction>, profiles: seq<Profile>,
                    events: seq<ModelEvent>, assemblyAt: int): Result<(Prediction, Receipt), Fault>
  {
    if assemblyAt < 0 then Err(NegativeTime)
    else match ValidatedComponents(hash, frame, predictions, assemblyAt)
      case Err(f) => Err(f)
      case Ok(components) =>
        ComponentsAreSingle(hash, frame, predictions, assemblyAt);
        match ProvisionalAll(hash, frame, components, profiles, events, assemblyAt)
        case Err(f) => Err(f)
        case Ok(items) =>
          ItemsKeepPredictions(hash, frame, components, profiles, events, assemblyAt);
          Combine(hash, frame, items, assemblyAt)
  }

  lemma {:induction false} ItemsKeepPredictions(hash: Hash, frame: Frame, components: seq<Prediction>, profiles: seq<Profile>,
                             events: seq<ModelEvent>, assemblyAt: int)
    requires forall i :: 0 <= i < |components| ==> |components[i].modelRefs| == 1
    requires ProvisionalAll(hash, frame, components, profiles, events, assemblyAt).Ok?
    ensures
      var items := ProvisionalAll(hash, frame, components, profiles, events, assemblyAt).value;
      |items| == |components| && forall i :: 0 <= i < |items| ==> items[i].prediction == components[i]
  {
  }

  // ------------------------------------------------------------------ the durable entry point

  function DurabilityFault(journal: seq<JournalEntry>, components: seq<Prediction>, assemblyAt: int): Option<Fault> {
    if components == [] then None
    else
      var before := DurabilityFault(journal, components[..|components| - 1], assemblyAt);
      if before.Some? then before
      else
        var c := components[|components| - 1];
        var existing := Lookup(journal, c.predictionId);
        if existing.None? then Some(NotDurable(c.predictionId))
        else if existing.value.prediction != c then Some(DiffersFromJournal(c.predictionId))
        else if existing.value.journaledAt > assemblyAt then Some(JournaledAfterAssembly(c.predictionId))
        else None
  }

  function EarliestCreated(components: seq<Prediction>): (t: int)
    requires components != []
    ensures forall i :: 0 <= i < |components| ==> t <= components[i].createdAt
    ensures exists i :: 0 <= i < |components| && t == components[i].createdAt
  {
    if |components| == 1 then components[0].createdAt
    else
      var n := |components| - 1;
      var before := EarliestCreated(components[..n]);
      assert exists i :: 0 <= i < n && before == components[..n][i].createdAt;
      Min(before, components[n].createdAt)
  }

  function CompetenceCutoff(components: seq<Prediction>): int
    requires components != []
  {
    Max(0, EarliestCreated(components) - 1)
  }

  /** _with_competence_cutoff: the cutoff is cited by every contributor and enters the receipt id. */
  function WithCutoff(hash: Hash, r: Receipt, cutoff: int): Receipt {
    var contributors := seq(|r.contributors|, i requires 0 <= i < |r.contributors| =>
      r.contributors[i].(competenceCutoff := Some(cutoff)));
    r.(receiptId := "ASM-" + Short(hash(ReceiptMaterial(r.assemblyAt, r.assembledHash, contributors))),
       contributors := contributors)
  }

  /** assemble_and_record up to its first write. */
  function Plan(hash: Hash, w: World, frame: Frame, components: seq<Prediction>, assemblyAt: int)
    : Result<(Prediction, Receipt), Fault>
  {
    if assemblyAt < 0 then Err(NegativeTime)
    else if components == [] then Err(NoComponents)
    else match DurabilityFault(w.predictions, components, assemblyAt)
      case Some(f) => Err(f)
      case None =>
        var cutoff := CompetenceCutoff(components);
        if cutoff > assemblyAt then Err(CutoffAfterAssembly)
        else
          var profiles := BuildProfiles(hash, Predictions(w.predictions), w.outcomes, cutoff);
          match Assemble(hash, frame, components, profiles, w.events, assemblyAt)
          case Err(f) => Err(f)
          case Ok(built) => Ok((built.0, WithCutoff(hash, built.1, cutoff)))
  }

  lemma {:induction false} DurableMeans(journal: seq<JournalEntry>, components: seq<Prediction>, assemblyAt: int)
    requires DurabilityFault(journal, components, assemblyAt).None?
    ensures forall i :: 0 <= i < |components| ==>
      var e := Lookup(journal, components[i].predictionId);
      e.Some? && e.value.prediction == components[i] && e.value.journaledAt <= assemblyAt
  {
    if components != [] {
      DurableMeans(journal, components[..|components| - 1], assemblyAt);
      assert forall i :: 0 <= i < |components| - 1 ==> components[i] == components[..|components| - 1][i];
    }
  }

  lemma {:induction false} DurabilityGrowth(journal: seq<JournalEntry>, extra: seq<JournalEntry>,
                                            components: seq<Prediction>, assemblyAt: int)
    requires UniqueIds(journal + extra) && DurabilityFault(journal, components, assemblyAt).None?
    ensures DurabilityFault(journal + extra, components, assemblyAt).None?
  {
    if components != [] {
      var n := |components| - 1;
      DurabilityGrowth(journal, extra, components[..n], assemblyAt);
      LookupGrowth(journal, extra, components[n].predictionId);
    }
  }
}

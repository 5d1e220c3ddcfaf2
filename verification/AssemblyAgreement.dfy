/** What Z8 promises about a recorded assembly: the validator accepts it, it rests on no evidence of
    its own, later evidence cannot unsettle it, and it satisfies the receipt contract. */
module AssemblyAgreement {
  import opened Prelude
  import opened Sorting
  import opened Evidence
  import opened Competence
  import opened CompetenceProfiles
  import opened Weighting
  import opened RoundedClosure
  import opened RoundedForecast
  import opened Assembly
  import opened Lineage

  lemma PredictionsConcat(journal: seq<JournalEntry>, extra: seq<JournalEntry>)
    ensures Predictions(journal + extra) == Predictions(journal) + Predictions(extra)
  {
  }

  // ------------------------------------------------------------------ growth

  function Grown(w: World, predictions: seq<JournalEntry>, outcomes: seq<Outcome>, events: seq<ModelEvent>): World {
    World(w.predictions + predictions, w.outcomes + outcomes, w.events + events)
  }

  /** Nothing that arrived bears on a profile built by the cutoff: predictions created later (or of
      several models), outcomes decided later. */
  ghost predicate ArrivedAfter(predictions: seq<JournalEntry>, outcomes: seq<Outcome>, cutoff: int) {
    && (forall i :: 0 <= i < |predictions| ==> !Counted(predictions[i].prediction, cutoff))
    && (forall i :: 0 <= i < |outcomes| ==> outcomes[i].decidedAt > cutoff)
  }

  lemma ProfilesByGrown(hash: Hash, w: World, predictions: seq<JournalEntry>, outcomes: seq<Outcome>,
                        events: seq<ModelEvent>, cutoff: int)
    requires ArrivedAfter(predictions, outcomes, cutoff)
    ensures ProfilesBy(hash, Grown(w, predictions, outcomes, events), cutoff) == ProfilesBy(hash, w, cutoff)
  {
    PredictionsConcat(w.predictions, predictions);
    ProfilesAreStable(hash, Predictions(w.predictions), Predictions(predictions), w.outcomes, outcomes, cutoff);
  }

  ghost predicate CutoffsRespected(r: Receipt, predictions: seq<JournalEntry>, outcomes: seq<Outcome>) {
    forall i :: 0 <= i < |r.contributors| && r.contributors[i].competenceCutoff.Some? ==>
      ArrivedAfter(predictions, outcomes, r.contributors[i].competenceCutoff.value)
  }

  lemma ContributorGrowth(hash: Hash, w: World, predictions: seq<JournalEntry>, outcomes: seq<Outcome>,
                          events: seq<ModelEvent>, r: Receipt, c: Contributor)
    requires UniqueIds(w.predictions + predictions)
    requires forall i :: 0 <= i < |events| ==> events[i].occurredAt > r.assemblyAt
    requires c.competenceCutoff.Some? ==> ArrivedAfter(predictions, outcomes, c.competenceCutoff.value)
    requires Lookup(w.predictions, c.componentId).Some?
    ensures ContributorErrors(hash, Grown(w, predictions, outcomes, events), r, c) == ContributorErrors(hash, w, r, c)
  {
    LookupGrowth(w.predictions, predictions, c.componentId);
    CitedGrowth(w.events, events, c.modelRef, r.assemblyAt);
    if c.competenceCutoff.Some? {
      ProfilesByGrown(hash, w, predictions, outcomes, events, c.competenceCutoff.value);
    }
  }

  lemma AbsenceIsAnError(hash: Hash, w: World, r: Receipt, c: Contributor)
    requires ContributorErrors(hash, w, r, c) == []
    ensures Lookup(w.predictions, c.componentId).Some?
  {
  }

  /** A receipt that validates keeps validating as the journals grow by entries past its competence
      cutoffs and the registry grows by events past its assembly time. */
  lemma ValidationIsStable(hash: Hash, w: World, predictions: seq<JournalEntry>, outcomes: seq<Outcome>,
                           events: seq<ModelEvent>, r: Receipt)
    requires LineageErrors(hash, w, r) == []
    requires UniqueIds(w.predictions + predictions)
    requires CutoffsRespected(r, predictions, outcomes)
    requires forall i :: 0 <= i < |events| ==> events[i].occurredAt > r.assemblyAt
    ensures LineageErrors(hash, Grown(w, predictions, outcomes, events), r) == []
  {
    var later := Grown(w, predictions, outcomes, events);
    var before, after := Checks(hash, w, r), Checks(hash, later, r);
    LookupGrowth(w.predictions, predictions, r.assembledId);
    CollectedNothing(before, r.contributors);
    CollectedNothing(after, r.contributors);
    forall i | 0 <= i < |r.contributors| ensures after(r.contributors[i]) == [] {
      assert before(r.contributors[i]) == [];
      AbsenceIsAnError(hash, w, r, r.contributors[i]);
      ContributorGrowth(hash, w, predictions, outcomes, events, r, r.contributors[i]);
    }
  }

  lemma ProvisionalGrowth(hash: Hash, frame: Frame, p: Prediction, profiles: seq<Profile>,
                          events: seq<ModelEvent>, extra: seq<ModelEvent>, assemblyAt: int)
    requires |p.modelRefs| == 1 && forall i :: 0 <= i < |extra| ==> extra[i].occurredAt > assemblyAt
    ensures ProvisionalOf(hash, frame, p, profiles, events + extra, assemblyAt)
         == ProvisionalOf(hash, frame, p, profiles, events, assemblyAt)
  {
    RecordGrowth(events, extra, p.modelRefs[0], assemblyAt);
  }

  lemma {:induction false} ProvisionalAllGrowth(hash: Hash, frame: Frame, components: seq<Prediction>, profiles: seq<Profile>,
                                                events: seq<ModelEvent>, extra: seq<ModelEvent>, assemblyAt: int)
    requires forall i :: 0 <= i < |components| ==> |components[i].modelRefs| == 1
    requires forall i :: 0 <= i < |extra| ==> extra[i].occurredAt > assemblyAt
    ensures ProvisionalAll(hash, frame, components, profiles, events + extra, assemblyAt)
         == ProvisionalAll(hash, frame, components, profiles, events, assemblyAt)
  {
    if components != [] {
      var n := |components| - 1;
      ProvisionalAllGrowth(hash, frame, components[..n], profiles, events, extra, assemblyAt);
      ProvisionalGrowth(hash, frame, components[n], profiles, events, extra, assemblyAt);
    }
  }

  lemma AssembleGrowth(hash: Hash, frame: Frame, components: seq<Prediction>, profiles: seq<Profile>,
                       events: seq<ModelEvent>, extra: seq<ModelEvent>, assemblyAt: int)
    requires forall i :: 0 <= i < |extra| ==> extra[i].occurredAt > assemblyAt
    ensures Assemble(hash, frame, components, profiles, events + extra, assemblyAt)
         == Assemble(hash, frame, components, profiles, events, assemblyAt)
  {
    var ordered := ValidatedComponents(hash, frame, components, assemblyAt);
    if ordered.Ok? {
      ComponentsAreSingle(hash, frame, components, assemblyAt);
      ProvisionalAllGrowth(hash, frame, ordered.value, profiles, events, extra, assemblyAt);
    }
  }

  /** An assembly planned again after the journals have grown past its cutoff, and the registry past its
      time, is planned the same: same prediction, same receipt. */
  lemma PlanIsStable(hash: Hash, w: World, predictions: seq<JournalEntry>, outcomes: seq<Outcome>, events: seq<ModelEvent>,
                     frame: Frame, components: seq<Prediction>, assemblyAt: int)
    requires Plan(hash, w, frame, components, assemblyAt).Ok?
    requires UniqueIds(w.predictions + predictions)
    requires ArrivedAfter(predictions, outcomes, Cutoff(components))
    requires forall i :: 0 <= i < |events| ==> events[i].occurredAt > assemblyAt
    ensures Plan(hash, Grown(w, predictions, outcomes, events), frame, components, assemblyAt)
         == Plan(hash, w, frame, components, assemblyAt)
  {
    PlanParts(hash, w, frame, components, assemblyAt);
    DurabilityGrowth(w.predictions, predictions, components, assemblyAt);
    ProfilesByGrown(hash, w, predictions, outcomes, events, Cutoff(components));
    AssembleGrowth(hash, frame, components, ProfilesBy(hash, w, Cutoff(components)), w.events, events, assemblyAt);
  }

  // ------------------------------------------------------------------ what a plan consists of

  ghost predicate ComponentOrder(hash: Hash, frame: Frame, items: seq<Provisional>, assemblyAt: int) {
    var ordered := ItemPredictions(items);
    && |items| >= 2
    && forall i :: 0 <= i < |items| ==>
         |items[i].prediction.modelRefs| == 1
         && ComponentFault(hash, frame, ordered[i], ordered[0], ordered[..i], assemblyAt).None?
  }

  function ItemPredictions(items: seq<Provisional>): seq<Prediction> {
    seq(|items|, i requires 0 <= i < |items| => items[i].prediction)
  }

  function Cutoff(components: seq<Prediction>): int {
    if components == [] then 0 else CompetenceCutoff(components)
  }

  lemma {:induction false} PlanParts(hash: Hash, w: World, frame: Frame, components: seq<Prediction>, assemblyAt: int)
    requires Plan(hash, w, frame, components, assemblyAt).Ok?
    ensures components != [] && 0 <= Cutoff(components) <= assemblyAt
    ensures DurabilityFault(w.predictions, components, assemblyAt).None?
    ensures
      var assembly := Assemble(hash, frame, components, ProfilesBy(hash, w, Cutoff(components)), w.events, assemblyAt);
      assembly.Ok? && Plan(hash, w, frame, components, assemblyAt)
                      == Ok((assembly.value.0, WithCutoff(hash, assembly.value.1, Cutoff(components))))
  {
  }

  /** The provisional items behind an assembly. */
  lemma AssemblyItems(hash: Hash, frame: Frame, components: seq<Prediction>, profiles: seq<Profile>,
                      events: seq<ModelEvent>, assemblyAt: int) returns (items: seq<Provisional>)
    requires Assemble(hash, frame, components, profiles, events, assemblyAt).Ok?
    ensures ComponentOrder(hash, frame, items, assemblyAt)
    ensures ItemPredictions(items) == Sorted(components, ComponentLe)
    ensures forall i :: 0 <= i < |items| ==>
      ProvisionalOf(hash, frame, items[i].prediction, profiles, events, assemblyAt) == Ok(items[i])
    ensures items[0].prediction.mode.PROSPECTIVE_SHADOW? ==>
      frame.status.QUALIFIED? && assemblyAt < items[0].prediction.resolvesAt
    ensures Assemble(hash, frame, components, profiles, events, assemblyAt) == Combine(hash, frame, items, assemblyAt)
  {
    var ordered := ValidatedComponents(hash, frame, components, assemblyAt).value;
    ComponentsAreSingle(hash, frame, components, assemblyAt);
    items := ProvisionalAll(hash, frame, ordered, profiles, events, assemblyAt).value;
    ItemsKeepPredictions(hash, frame, ordered, profiles, events, assemblyAt);
    assert ItemPredictions(items) == ordered;
  }

  ghost predicate BuiltPrediction(hash: Hash, frame: Frame, items: seq<Provisional>, scores: seq<real>,
                                  assemblyAt: int, assembled: Prediction)
    requires Scores(scores) && |scores| == |items| >= 2 && RoundedSum(scores) > 0.0
    requires forall i :: 0 <= i < |items| ==> |items[i].prediction.modelRefs| == 1
  {
    var first := items[0].prediction;
    && assembled.predictionId != ""
    && assembled.predictionAt == first.predictionAt && assembled.horizon == first.horizon
    && assembled.resolvesAt == first.predictionAt + first.horizon && assembled.createdAt == assemblyAt
    && assembled.mode == first.mode && assembled.evidenceClass == ClassOf(first.mode)
    && assembled.targetMetric == TARGET_METRIC && assembled.modelRefs == ModelRefs(items)
    && assembled.frameId == frame.frameId && assembled.frameHash == hash(FrameBody(frame))
    && assembled.frameStatus == frame.status && !frame.status.UNAVAILABLE?
    && assembled.referencePrice.value > 0.0
    && assembled.expectedMove == Forecast(ExpectedMoves(items), RoundedWeights(scores))
    && assembled.probabilityPositive == Forecast(Assembly.Probabilities(items), RoundedWeights(scores))
    && assembled.interval == Envelope(items)
  }

  /** Everything in the receipt but its contributors comes from the frame and the assembled prediction. */
  ghost predicate BuiltReceipt(hash: Hash, frame: Frame, assemblyAt: int, assembled: Prediction, r: Receipt) {
    && r.receiptId != "" && r.assemblyAt == assemblyAt && r.mode == assembled.mode
    && r.evidenceClass == assembled.evidenceClass && r.frameId == frame.frameId && r.frameHash == hash(FrameBody(frame))
    && r.predictionAt == assembled.predictionAt && r.horizon == assembled.horizon
    && r.resolvesAt == assembled.resolvesAt && r.targetMetric == assembled.targetMetric
    && r.assembledId == assembled.predictionId && r.assembledHash == hash(PredictionBody(assembled))
  }

  function CitedAs(hash: Hash, item: Provisional, skill: Option<real>, score: real, weight: real, cutoff: int): Contributor
    requires |item.prediction.modelRefs| == 1
  {
    ContributorOf(hash, item, skill, score, weight).(competenceCutoff := Some(cutoff))
  }

  ghost predicate BuiltContributors(hash: Hash, items: seq<Provisional>, skills: seq<Option<real>>, scores: seq<real>,
                                    cutoff: int, r: Receipt)
    requires Scores(scores) && |scores| == |items| >= 2 && RoundedSum(scores) > 0.0
    requires forall i :: 0 <= i < |items| ==> |items[i].prediction.modelRefs| == 1
  {
    && |skills| == |items| == |r.contributors|
    && (forall i :: 0 <= i < |items| && skills[i].Some? ==> 0.0 <= skills[i].value <= 1.0)
    && forall i :: 0 <= i < |items| ==>
         r.contributors[i] == CitedAs(hash, items[i], skills[i], scores[i], RoundedWeights(scores)[i], cutoff)
  }

  lemma CombineParts(hash: Hash, frame: Frame, items: seq<Provisional>, assemblyAt: int)
    returns (skills: seq<Option<real>>, scores: seq<real>)
    requires |items| >= 2 && forall i :: 0 <= i < |items| ==> |items[i].prediction.modelRefs| == 1
    requires Combine(hash, frame, items, assemblyAt).Ok?
    ensures |skills| == |scores| == |items| && Scores(scores) && RoundedSum(scores) > 0.0
    ensures forall i :: 0 <= i < |items| && skills[i].Some? ==> 0.0 <= skills[i].value <= 1.0
    ensures
      var (assembled, r) := Combine(hash, frame, items, assemblyAt).value;
      && BuiltPrediction(hash, frame, items, scores, assemblyAt, assembled)
      && r == ReceiptOf(hash, frame, assembled, assemblyAt, r.contributors)
      && |r.contributors| == |items|
      && forall i :: 0 <= i < |items| ==>
           r.contributors[i] == ContributorOf(hash, items[i], skills[i], scores[i], RoundedWeights(scores)[i])
  {
    var diagnostics := Diagnostics(items);
    skills := Skills(diagnostics, ErrorScale(diagnostics)).value;
    scores := RawScores(diagnostics, skills);
    TotalIsPositive(scores);
    forall i | 0 <= i < |items| && skills[i].Some? ensures 0.0 <= skills[i].value <= 1.0 {
      assert Skill(diagnostics[i], ErrorScale(diagnostics)) == Ok(skills[i]);
    }
  }

  lemma {:induction false} CutoffParts(hash: Hash, frame: Frame, items: seq<Provisional>, skills: seq<Option<real>>, scores: seq<real>,
                    assemblyAt: int, cutoff: int, assembled: Prediction, r: Receipt)
    requires |items| >= 2 && |skills| == |scores| == |items| == |r.contributors| && Scores(scores) && RoundedSum(scores) > 0.0
    requires forall i :: 0 <= i < |items| ==> |items[i].prediction.modelRefs| == 1
    requires forall i :: 0 <= i < |items| && skills[i].Some? ==> 0.0 <= skills[i].value <= 1.0
    requires r == ReceiptOf(hash, frame, assembled, assemblyAt, r.contributors)
    requires forall i :: 0 <= i < |items| ==>
      r.contributors[i] == ContributorOf(hash, items[i], skills[i], scores[i], RoundedWeights(scores)[i])
    ensures BuiltReceipt(hash, frame, assemblyAt, assembled, WithCutoff(hash, r, cutoff))
    ensures BuiltContributors(hash, items, skills, scores, cutoff, WithCutoff(hash, r, cutoff))
  {
  }

  /** Where the items of a plan come from: the sorted components and the journals at the cutoff. */
  ghost predicate Grounded(hash: Hash, w: World, frame: Frame, components: seq<Prediction>, assemblyAt: int,
                           items: seq<Provisional>)
  {
    && ComponentOrder(hash, frame, items, assemblyAt)
    && ItemPredictions(items) == Sorted(components, ComponentLe)
    && (forall i :: 0 <= i < |items| ==>
          ProvisionalOf(hash, frame, items[i].prediction, ProfilesBy(hash, w, Cutoff(components)), w.events, assemblyAt)
          == Ok(items[i]))
    && (items[0].prediction.mode.PROSPECTIVE_SHADOW? ==>
          frame.status.QUALIFIED? && assemblyAt < items[0].prediction.resolvesAt)
  }

  ghost predicate Built(hash: Hash, frame: Frame, items: seq<Provisional>, skills: seq<Option<real>>, scores: seq<real>,
                        assemblyAt: int, cutoff: int, assembled: Prediction, r: Receipt)
  {
    && |scores| == |items| >= 2 && Scores(scores) && RoundedSum(scores) > 0.0
    && (forall i :: 0 <= i < |items| ==> |items[i].prediction.modelRefs| == 1)
    && BuiltPrediction(hash, frame, items, scores, assemblyAt, assembled)
    && BuiltReceipt(hash, frame, assemblyAt, assembled, r)
    && BuiltContributors(hash, items, skills, scores, cutoff, r)
  }

  /** What a plan is made of, told without the steps that made it. */
  ghost predicate Planned(hash: Hash, w: World, frame: Frame, components: seq<Prediction>, assemblyAt: int,
                          assembled: Prediction, r: Receipt)
  {
    && components != [] && 0 <= Cutoff(components) <= assemblyAt
    && DurabilityFault(w.predictions, components, assemblyAt).None?
    && exists items, skills, scores ::
         Grounded(hash, w, frame, components, assemblyAt, items)
         && Built(hash, frame, items, skills, scores, assemblyAt, Cutoff(components), assembled, r)
  }

  lemma PlanIsPlanned(hash: Hash, w: World, frame: Frame, components: seq<Prediction>, assemblyAt: int)
    requires Plan(hash, w, frame, components, assemblyAt).Ok?
    ensures
      var (assembled, r) := Plan(hash, w, frame, components, assemblyAt).value;
      Planned(hash, w, frame, components, assemblyAt, assembled, r)
  {
    PlanParts(hash, w, frame, components, assemblyAt);
    AssemblyIsPlanned(hash, w, frame, components, assemblyAt);
  }

  lemma {:induction false} AssemblyIsPlanned(hash: Hash, w: World, frame: Frame, components: seq<Prediction>, assemblyAt: int)
    requires components != [] && 0 <= Cutoff(components) <= assemblyAt
    requires DurabilityFault(w.predictions, components, assemblyAt).None?
    requires Assemble(hash, frame, components, ProfilesBy(hash, w, Cutoff(components)), w.events, assemblyAt).Ok?
    ensures
      var (assembled, r) :=
        Assemble(hash, frame, components, ProfilesBy(hash, w, Cutoff(components)), w.events, assemblyAt).value;
      Planned(hash, w, frame, components, assemblyAt, assembled, WithCutoff(hash, r, Cutoff(components)))
  {
    var profiles, cutoff := ProfilesBy(hash, w, Cutoff(components)), Cutoff(components);
    var items := AssemblyItems(hash, frame, components, profiles, w.events, assemblyAt);
    assert Grounded(hash, w, frame, components, assemblyAt, items);
    CombinationIsBuilt(hash, frame, items, assemblyAt, cutoff);
  }

  lemma CombinationIsBuilt(hash: Hash, frame: Frame, items: seq<Provisional>, assemblyAt: int, cutoff: int)
    requires |items| >= 2 && forall i :: 0 <= i < |items| ==> |items[i].prediction.modelRefs| == 1
    requires Combine(hash, frame, items, assemblyAt).Ok?
    ensures
      var (assembled, r) := Combine(hash, frame, items, assemblyAt).value;
      exists skills, scores ::
        Built(hash, frame, items, skills, scores, assemblyAt, cutoff, assembled, WithCutoff(hash, r, cutoff))
  {
    var skills, scores := CombineParts(hash, frame, items, assemblyAt);
    var (assembled, r) := Combine(hash, frame, items, assemblyAt).value;
    CutoffParts(hash, frame, items, skills, scores, assemblyAt, cutoff, assembled, r);
    assert Built(hash, frame, items, skills, scores, assemblyAt, cutoff, assembled, WithCutoff(hash, r, cutoff));
  }

  /** The parts of a plan. */
  lemma PlannedParts(hash: Hash, w: World, frame: Frame, components: seq<Prediction>, assemblyAt: int,
                     assembled: Prediction, r: Receipt)
    returns (items: seq<Provisional>, skills: seq<Option<real>>, scores: seq<real>)
    requires Planned(hash, w, frame, components, assemblyAt, assembled, r)
    ensures Grounded(hash, w, frame, components, assemblyAt, items)
    ensures Built(hash, frame, items, skills, scores, assemblyAt, Cutoff(components), assembled, r)
  {
    items, skills, scores :| Grounded(hash, w, frame, components, assemblyAt, items)
      && Built(hash, frame, items, skills, scores, assemblyAt, Cutoff(components), assembled, r);
  }

  // ------------------------------------------------------------------ agreement

  ghost predicate SeveralModels(extra: seq<JournalEntry>) {
    forall i :: 0 <= i < |extra| ==> |extra[i].prediction.modelRefs| >= 2
  }

  function Recorded(w: World, extra: seq<JournalEntry>): World { w.(predictions := w.predictions + extra) }

  lemma ProfilesByRecorded(hash: Hash, w: World, extra: seq<JournalEntry>, cutoff: int)
    requires SeveralModels(extra)
    ensures ProfilesBy(hash, Recorded(w, extra), cutoff) == ProfilesBy(hash, w, cutoff)
  {
    ProfilesByGrown(hash, w, extra, [], [], cutoff);
    assert w.outcomes + [] == w.outcomes;
  }

  /** The receipt shares the frame and the contract of the first component. */
  ghost predicate OnContract(hash: Hash, frame: Frame, r: Receipt, first: Prediction) {
    && r.frameId == frame.frameId && r.frameHash == hash(FrameBody(frame))
    && r.mode == first.mode && r.evidenceClass == first.evidenceClass
    && r.predictionAt == first.predictionAt && r.horizon == first.horizon && r.targetMetric == first.targetMetric
  }

  lemma ComponentAgrees(hash: Hash, frame: Frame, p: Prediction, first: Prediction, earlier: seq<Prediction>,
                        r: Receipt, c: Contributor)
    requires ComponentFault(hash, frame, p, first, earlier, r.assemblyAt).None? && OnContract(hash, frame, r, first)
    requires p.modelRefs == [c.modelRef] && c.componentHash == hash(PredictionBody(p))
    ensures ComponentErrors(hash, p, r, c) == []
  {
  }

  lemma {:induction false} RegistryAgrees(events: seq<ModelEvent>, item: Provisional, asOf: int, c: Contributor)
    requires RecordAt(events, c.modelRef, asOf) == Some(item.record)
    requires c.registryState == item.record.state && c.registryEventHash == item.record.eventHash
    requires c.definitionHash == item.record.definitionHash && c.artifactHash == item.record.artifactHash
    ensures RegistryErrors(CitedAt(events, c.modelRef, asOf), c) == []
  {
    RecordsAgree(events, c.modelRef, asOf);
  }

  lemma CompetenceAgrees(hash: Hash, w: World, item: Provisional, cutoff: int, assemblyAt: int, c: Contributor)
    requires |item.prediction.modelRefs| == 1 && 0 <= cutoff <= assemblyAt
    requires SelectProfile(hash, ProfilesBy(hash, w, cutoff), item.prediction, assemblyAt) == Ok(item.profile)
    requires c.profileHash == (if item.profile.None? then None else Some(hash(ProfileBody(item.profile.value))))
    requires c.profileAsOf == (if item.profile.None? then None else Some(item.profile.value.asOf))
    requires c.competenceStatus == (if item.profile.None? then NO_PRIOR_MATCHED_COMPETENCE else MATCHED)
    ensures CompetenceErrors(hash, ChosenProfile(hash, w, item.prediction, cutoff), c) == []
  {
    ProfileSegments(hash, Predictions(w.predictions), w.outcomes, cutoff);
    ChoicesAgree(hash, ProfilesBy(hash, w, cutoff), item.prediction, cutoff, assemblyAt);
  }

  lemma {:induction false} ProvisionalParts(hash: Hash, frame: Frame, p: Prediction, profiles: seq<Profile>,
                         events: seq<ModelEvent>, assemblyAt: int)
    requires |p.modelRefs| == 1 && ProvisionalOf(hash, frame, p, profiles, events, assemblyAt).Ok?
    ensures
      var item := ProvisionalOf(hash, frame, p, profiles, events, assemblyAt).value;
      && item.prediction == p && RecordAt(events, p.modelRefs[0], assemblyAt) == Some(item.record)
      && SelectProfile(hash, profiles, p, assemblyAt) == Ok(item.profile)
      && (item.profile.Some? ==> 0.0 <= item.profile.value.metrics.sampleStrength <= 1.0)
  {
  }

  /** One contributor, as the producer wrote it, against the journals it was read from. */
  lemma ContributorAgrees(hash: Hash, w: World, frame: Frame, item: Provisional, first: Prediction, earlier: seq<Prediction>,
                          cutoff: int, r: Receipt, skill: Option<real>, score: real, weight: real)
    requires ComponentFault(hash, frame, item.prediction, first, earlier, r.assemblyAt).None?
    requires OnContract(hash, frame, r, first)
    requires Lookup(w.predictions, item.prediction.predictionId).Some?
    requires Lookup(w.predictions, item.prediction.predictionId).value.prediction == item.prediction
    requires ProvisionalOf(hash, frame, item.prediction, ProfilesBy(hash, w, cutoff), w.events, r.assemblyAt) == Ok(item)
    requires 0 <= cutoff <= r.assemblyAt
    ensures ContributorErrors(hash, w, r, CitedAs(hash, item, skill, score, weight, cutoff)) == []
  {
    var c := CitedAs(hash, item, skill, score, weight, cutoff);
    ProvisionalParts(hash, frame, item.prediction, ProfilesBy(hash, w, cutoff), w.events, r.assemblyAt);
    ComponentAgrees(hash, frame, item.prediction, first, earlier, r, c);
    RegistryAgrees(w.events, item, r.assemblyAt, c);
    CompetenceAgrees(hash, w, item, cutoff, r.assemblyAt, c);
    PartsAgree(hash, w, r, c, item.prediction);
  }

  lemma PartsAgree(hash: Hash, w: World, r: Receipt, c: Contributor, component: Prediction)
    requires Lookup(w.predictions, c.componentId).Some? && Lookup(w.predictions, c.componentId).value.prediction == component
    requires ComponentErrors(hash, component, r, c) == [] && RegistryErrors(CitedAt(w.events, c.modelRef, r.assemblyAt), c) == []
    requires CutoffValid(c, r) && CompetenceErrors(hash, ChosenProfile(hash, w, component, c.competenceCutoff.value), c) == []
    ensures ContributorErrors(hash, w, r, c) == []
  {
  }

  ghost predicate ValidComponents(w: World, components: seq<Prediction>) {
    forall i :: 0 <= i < |components| ==> ValidPrediction(components[i])
  }

  lemma {:induction false} DurableComponentsAreValid(w: World, components: seq<Prediction>, assemblyAt: int)
    requires ValidJournal(w.predictions) && DurabilityFault(w.predictions, components, assemblyAt).None?
    ensures ValidComponents(w, components)
  {
    DurableMeans(w.predictions, components, assemblyAt);
    forall i | 0 <= i < |components| ensures ValidPrediction(components[i]) {
      var e := Lookup(w.predictions, components[i].predictionId).value;
      var k :| 0 <= k < |w.predictions| && w.predictions[k] == e;
      assert ValidEntry(w.predictions[k]);
    }
  }

  lemma {:induction false} ItemsAreComponents(items: seq<Provisional>, components: seq<Prediction>)
    requires ItemPredictions(items) == Sorted(components, ComponentLe)
    ensures forall i :: 0 <= i < |items| ==> items[i].prediction in components
  {
    SortedMembers(components, ComponentLe);
    forall i | 0 <= i < |items| ensures items[i].prediction in components {
      assert ItemPredictions(items)[i] in ItemPredictions(items);
    }
  }

  lemma BuiltOnContract(hash: Hash, frame: Frame, items: seq<Provisional>, skills: seq<Option<real>>, scores: seq<real>,
                        assemblyAt: int, cutoff: int, assembled: Prediction, r: Receipt)
    requires Built(hash, frame, items, skills, scores, assemblyAt, cutoff, assembled, r)
    requires ValidPrediction(items[0].prediction)
    ensures OnContract(hash, frame, r, items[0].prediction) && r.resolvesAt == items[0].prediction.resolvesAt
  {
  }

  /** One round of the validator's loop over a planned receipt. */
  lemma PlannedContributorAgrees(hash: Hash, w: World, later: World, frame: Frame, components: seq<Prediction>,
                                 assemblyAt: int, items: seq<Provisional>, i: nat, r: Receipt,
                                 skill: Option<real>, score: real, weight: real)
    requires Grounded(hash, w, frame, components, assemblyAt, items) && i < |items|
    requires OnContract(hash, frame, r, items[0].prediction) && r.assemblyAt == assemblyAt
    requires 0 <= Cutoff(components) <= assemblyAt
    requires later.events == w.events
    requires ProfilesBy(hash, later, Cutoff(components)) == ProfilesBy(hash, w, Cutoff(components))
    requires Lookup(later.predictions, items[i].prediction.predictionId).Some?
    requires Lookup(later.predictions, items[i].prediction.predictionId).value.prediction == items[i].prediction
    ensures ContributorErrors(hash, later, r, CitedAs(hash, items[i], skill, score, weight, Cutoff(components))) == []
  {
    var ordered := ItemPredictions(items);
    assert ordered[0] == items[0].prediction && ordered[i] == items[i].prediction;
    ContributorAgrees(hash, later, frame, items[i], items[0].prediction, ordered[..i], Cutoff(components), r,
                      skill, score, weight);
  }

  /** The contributor loop of the validator finds nothing, whatever predictions of several models
      (the assembled one above all) were appended in between. */
  lemma ContributorsAgree(hash: Hash, w: World, frame: Frame, components: seq<Prediction>, assemblyAt: int,
                          assembled: Prediction, r: Receipt, extra: seq<JournalEntry>)
    requires ValidJournal(w.predictions) && UniqueIds(w.predictions + extra) && SeveralModels(extra)
    requires Planned(hash, w, frame, components, assemblyAt, assembled, r)
    ensures Collected(Checks(hash, Recorded(w, extra), r), r.contributors) == []
  {
    var later, cutoff := Recorded(w, extra), Cutoff(components);
    var items, skills, scores := PlannedParts(hash, w, frame, components, assemblyAt, assembled, r);
    ItemsAreComponents(items, components);
    DurableMeans(w.predictions, components, assemblyAt);
    DurableComponentsAreValid(w, components, assemblyAt);
    ProfilesByRecorded(hash, w, extra, cutoff);
    BuiltOnContract(hash, frame, items, skills, scores, assemblyAt, cutoff, assembled, r);
    var checks := Checks(hash, later, r);
    forall i | 0 <= i < |items| ensures checks(r.contributors[i]) == [] {
      assert items[i].prediction in components;
      LookupGrowth(w.predictions, extra, items[i].prediction.predictionId);
      PlannedContributorAgrees(hash, w, later, frame, components, assemblyAt, items, i, r,
                               skills[i], scores[i], RoundedWeights(scores)[i]);
    }
    CollectedNothing(checks, r.contributors);
  }

  lemma RefsAgree(items: seq<Provisional>, contributors: seq<Contributor>)
    requires |contributors| == |items| && forall i :: 0 <= i < |items| ==> |items[i].prediction.modelRefs| == 1
    requires forall i :: 0 <= i < |items| ==> contributors[i].modelRef == items[i].prediction.modelRefs[0]
    ensures CitedRefs(contributors) == ModelRefs(items)
  {
  }

  lemma NoAssembledErrors(hash: Hash, frame: Frame, assemblyAt: int, assembled: Prediction, r: Receipt)
    requires BuiltReceipt(hash, frame, assemblyAt, assembled, r)
    requires assembled.frameId == frame.frameId && assembled.frameHash == hash(FrameBody(frame))
    requires CitedRefs(r.contributors) == assembled.modelRefs
    ensures AssembledErrors(hash, assembled, r) == []
  {
  }

  lemma AssembledAgrees(hash: Hash, w: World, frame: Frame, components: seq<Prediction>, assemblyAt: int,
                        assembled: Prediction, r: Receipt)
    requires Planned(hash, w, frame, components, assemblyAt, assembled, r)
    ensures AssembledErrors(hash, assembled, r) == [] && r.assembledId == assembled.predictionId
    ensures |assembled.modelRefs| == |components| >= 2
  {
    var items, skills, scores := PlannedParts(hash, w, frame, components, assemblyAt, assembled, r);
    SortedPermutes(components, ComponentLe);
    assert |ItemPredictions(items)| == |components|;
    RefsAgree(items, r.contributors);
    NoAssembledErrors(hash, frame, assemblyAt, assembled, r);
  }

  /** Producer and validator agree: once the assembled prediction is in the journal, the receipt validates. */
  lemma ProducerValidatorAgreement(hash: Hash, w: World, frame: Frame, components: seq<Prediction>, assemblyAt: int)
    requires ValidJournal(w.predictions)
    requires Plan(hash, w, frame, components, assemblyAt).Ok?
    requires
      var assembled := Plan(hash, w, frame, components, assemblyAt).value.0;
      Append(w.predictions, assembled, assemblyAt).Ok?
    ensures
      var (assembled, r) := Plan(hash, w, frame, components, assemblyAt).value;
      LineageErrors(hash, w.(predictions := Append(w.predictions, assembled, assemblyAt).value), r) == []
  {
    var (assembled, r) := Plan(hash, w, frame, components, assemblyAt).value;
    PlanIsPlanned(hash, w, frame, components, assemblyAt);
    PlannedValidates(hash, w, frame, components, assemblyAt, assembled, r);
  }

  lemma PlannedValidates(hash: Hash, w: World, frame: Frame, components: seq<Prediction>, assemblyAt: int,
                         assembled: Prediction, r: Receipt)
    requires ValidJournal(w.predictions) && Planned(hash, w, frame, components, assemblyAt, assembled, r)
    requires Append(w.predictions, assembled, assemblyAt).Ok?
    ensures LineageErrors(hash, w.(predictions := Append(w.predictions, assembled, assemblyAt).value), r) == []
  {
    AssembledAgrees(hash, w, frame, components, assemblyAt, assembled, r);
    var extra := AppendedEntries(w.predictions, assembled, assemblyAt);
    ContributorsAgree(hash, w, frame, components, assemblyAt, assembled, r, extra);
  }

  lemma AppendedEntries(journal: seq<JournalEntry>, p: Prediction, journaledAt: int) returns (extra: seq<JournalEntry>)
    requires UniqueIds(journal) && Append(journal, p, journaledAt).Ok?
    ensures Append(journal, p, journaledAt).value == journal + extra
    ensures UniqueIds(journal + extra)
    ensures Lookup(journal + extra, p.predictionId).Some? && Lookup(journal + extra, p.predictionId).value.prediction == p
    ensures Append(journal + extra, p, journaledAt) == Ok(journal + extra)
    ensures |p.modelRefs| >= 2 ==> SeveralModels(extra)
  {
    AppendKeepsJournal(journal, p, journaledAt);
    extra := Append(journal, p, journaledAt).value[|journal|..];
  }

  // ------------------------------------------------------------------ no evidence of its own

  /** The profile rests on no prediction of the set, and on nothing created after the cutoff. */
  ghost predicate Uninvolved(hash: Hash, w: World, profile: Profile, components: seq<Prediction>, cutoff: int) {
    && (forall j :: 0 <= j < |components| ==> hash(PredictionBody(components[j])) !in profile.predictionHashes)
    && (forall h :: h in profile.predictionHashes ==>
          exists q :: q in Predictions(w.predictions) && h == hash(PredictionBody(q)) && q.createdAt <= cutoff)
  }

  /** What is hashed to name the durable predictions, the components and the profiles built for them. */
  function NamedBodies(hash: Hash, w: World, components: seq<Prediction>): set<Body> {
    (set p | p in Predictions(w.predictions) :: PredictionBody(p))
    + (set p | p in components :: PredictionBody(p))
    + (set profile | profile in ProfilesBy(hash, w, Cutoff(components)) :: ProfileBody(profile))
  }

  lemma SegmentNamesModel(p: Prediction, q: Prediction)
    requires |p.modelRefs| == 1 && |q.modelRefs| == 1 && SegmentOf(q) == SegmentOf(p)
    ensures q.modelRefs == p.modelRefs
  {
    assert q.modelRefs == [q.modelRefs[0]] && p.modelRefs == [p.modelRefs[0]];
  }

  lemma NamesDiffer(hash: Hash, w: World, components: seq<Prediction>, q: Prediction, c: Prediction)
    requires Apart(hash, NamedBodies(hash, w, components)) && q in Predictions(w.predictions) && c in components && q != c
    ensures hash(PredictionBody(q)) != hash(PredictionBody(c))
  {
    assert PredictionBody(q) in NamedBodies(hash, w, components);
    assert PredictionBody(c) in NamedBodies(hash, w, components);
    assert PredictionBody(q) != PredictionBody(c);
  }

  /** A profile of one build whose segment belongs to one component counts none of the components. */
  lemma ChosenIsUninvolved(hash: Hash, w: World, components: seq<Prediction>, p: Prediction, k: nat)
    requires Apart(hash, NamedBodies(hash, w, components)) && p in components && |p.modelRefs| == 1
    requires forall i, j :: 0 <= i < j < |components| ==> components[i].modelRefs != components[j].modelRefs
    requires
      var profiles := ProfilesBy(hash, w, Cutoff(components));
      k < |profiles| && profiles[k].segment == SegmentOf(p) && hash(PredictionBody(p)) !in profiles[k].predictionHashes
    ensures Uninvolved(hash, w, ProfilesBy(hash, w, Cutoff(components))[k], components, Cutoff(components))
  {
    var profile := ProfilesBy(hash, w, Cutoff(components))[k];
    ProfileCites(hash, Predictions(w.predictions), w.outcomes, Cutoff(components), k);
    var n :| 0 <= n < |components| && components[n] == p;
    forall j, h | 0 <= j < |components| && h in profile.predictionHashes
      ensures h != hash(PredictionBody(components[j]))
    {
      var q :| q in Predictions(w.predictions) && Counted(q, Cutoff(components)) && SegmentOf(q) == profile.segment
               && h == hash(PredictionBody(q));
      if j != n {
        SegmentNamesModel(p, q);
        NamesDiffer(hash, w, components, q, components[j]);
      }
    }
  }

  lemma ItemProfileIsBuilt(hash: Hash, w: World, frame: Frame, components: seq<Prediction>, item: Provisional, assemblyAt: int)
    requires |item.prediction.modelRefs| == 1 && Cutoff(components) <= assemblyAt
    requires ProvisionalOf(hash, frame, item.prediction, ProfilesBy(hash, w, Cutoff(components)), w.events, assemblyAt)
          == Ok(item)
    ensures item.profile.Some? ==>
      && item.profile.value in ProfilesBy(hash, w, Cutoff(components))
      && item.profile.value.segment == SegmentOf(item.prediction)
      && hash(PredictionBody(item.prediction)) !in item.profile.value.predictionHashes
  {
    var p, profiles := item.prediction, ProfilesBy(hash, w, Cutoff(components));
    ProvisionalParts(hash, frame, p, profiles, w.events, assemblyAt);
    ProfileSegments(hash, Predictions(w.predictions), w.outcomes, Cutoff(components));
    ChoicesAgree(hash, profiles, p, Cutoff(components), assemblyAt);
  }

  /** The profile chosen for a component counts none of the components. */
  lemma ItemIsUninvolved(hash: Hash, w: World, frame: Frame, components: seq<Prediction>, item: Provisional, assemblyAt: int)
    requires Apart(hash, NamedBodies(hash, w, components)) && item.prediction in components && |item.prediction.modelRefs| == 1
    requires forall i, j :: 0 <= i < j < |components| ==> components[i].modelRefs != components[j].modelRefs
    requires Cutoff(components) <= assemblyAt && item.profile.Some?
    requires ProvisionalOf(hash, frame, item.prediction, ProfilesBy(hash, w, Cutoff(components)), w.events, assemblyAt)
          == Ok(item)
    ensures Uninvolved(hash, w, item.profile.value, components, Cutoff(components))
  {
    var p, profiles := item.prediction, ProfilesBy(hash, w, Cutoff(components));
    ItemProfileIsBuilt(hash, w, frame, components, item, assemblyAt);
    var k :| 0 <= k < |profiles| && profiles[k] == item.profile.value;
    ChosenIsUninvolved(hash, w, components, p, k);
  }

  lemma {:induction false} ComponentsDiffer(hash: Hash, frame: Frame, items: seq<Provisional>, components: seq<Prediction>, assemblyAt: int)
    requires ComponentOrder(hash, frame, items, assemblyAt)
    requires ItemPredictions(items) == Sorted(components, ComponentLe)
    ensures forall i, j :: 0 <= i < j < |components| ==> components[i].modelRefs != components[j].modelRefs
  {
    var ordered := ItemPredictions(items);
    SortedPermutes(components, ComponentLe);
    forall i, j | 0 <= i < j < |ordered| ensures ordered[i].modelRefs != ordered[j].modelRefs {
      ItemsDiffer(hash, frame, items, i, j, assemblyAt);
    }
    DifferAsSequence(ordered, components);
  }

  lemma ItemsDiffer(hash: Hash, frame: Frame, items: seq<Provisional>, i: nat, j: nat, assemblyAt: int)
    requires ComponentOrder(hash, frame, items, assemblyAt) && i < j < |items|
    ensures items[i].prediction.modelRefs != items[j].prediction.modelRefs
  {
    var ordered := ItemPredictions(items);
    assert ComponentFault(hash, frame, ordered[j], ordered[0], ordered[..j], assemblyAt).None?;
    assert ordered[..j][i] == items[i].prediction && ordered[j] == items[j].prediction;
  }

  lemma DifferAsSequence(ordered: seq<Prediction>, components: seq<Prediction>)
    requires multiset(ordered) == multiset(components)
    requires forall i, j :: 0 <= i < j < |ordered| ==> ordered[i].modelRefs != ordered[j].modelRefs
    ensures forall i, j :: 0 <= i < j < |components| ==> components[i].modelRefs != components[j].modelRefs
  {
    assert Distinct(ordered);
    DistinctByMultiset(ordered, components);
    forall i, j | 0 <= i < j < |components| ensures components[i].modelRefs != components[j].modelRefs {
      assert components[i] in multiset(ordered) && components[j] in multiset(ordered);
      var a :| 0 <= a < |ordered| && ordered[a] == components[i];
      var b :| 0 <= b < |ordered| && ordered[b] == components[j];
      assert a != b;
    }
  }

  /** The profile a contributor cites is one of those built for the assembly. No cited profile counts the contributor's own prediction, or that of any other
      component: every prediction it counts was created by the cutoff, and the cutoff lies before
      every component unless a component was created at time 0. */
  lemma {:induction false} NoSelfEvidence(hash: Hash, w: World, frame: Frame, components: seq<Prediction>, assemblyAt: int, i: nat)
    requires Apart(hash, NamedBodies(hash, w, components))
    requires Plan(hash, w, frame, components, assemblyAt).Ok?
    requires i < |Plan(hash, w, frame, components, assemblyAt).value.1.contributors|
    ensures
      var c := Plan(hash, w, frame, components, assemblyAt).value.1.contributors[i];
      && c.competenceCutoff == Some(Cutoff(components))
      && (c.profileHash.Some? ==> exists profile ::
            profile in ProfilesBy(hash, w, Cutoff(components)) && c.profileHash == Some(hash(ProfileBody(profile))))
      && (forall profile ::
            profile in ProfilesBy(hash, w, Cutoff(components)) && c.profileHash == Some(hash(ProfileBody(profile))) ==>
            Uninvolved(hash, w, profile, components, Cutoff(components)))
    ensures components != [] && (EarliestCreated(components) > 0 ==>
              forall j :: 0 <= j < |components| ==> Cutoff(components) < components[j].createdAt)
  {
    var (assembled, r) := Plan(hash, w, frame, components, assemblyAt).value;
    PlanIsPlanned(hash, w, frame, components, assemblyAt);
    PlannedCitesBuilt(hash, w, frame, components, assemblyAt, assembled, r, i);
    forall profile | profile in ProfilesBy(hash, w, Cutoff(components))
                     && r.contributors[i].profileHash == Some(hash(ProfileBody(profile)))
      ensures Uninvolved(hash, w, profile, components, Cutoff(components))
    {
      PlannedIsUninvolved(hash, w, frame, components, assemblyAt, assembled, r, i, profile);
    }
    PlannedCutoff(hash, w, frame, components, assemblyAt, assembled, r, i);
  }

  lemma PlannedCutoff(hash: Hash, w: World, frame: Frame, components: seq<Prediction>, assemblyAt: int,
                      assembled: Prediction, r: Receipt, i: nat)
    requires Planned(hash, w, frame, components, assemblyAt, assembled, r) && i < |r.contributors|
    ensures r.contributors[i].competenceCutoff == Some(Cutoff(components))
  {
    var items, skills, scores := PlannedParts(hash, w, frame, components, assemblyAt, assembled, r);
    assert r.contributors[i] == CitedAs(hash, items[i], skills[i], scores[i], RoundedWeights(scores)[i], Cutoff(components));
  }

  /** What one contributor cites, and where it comes from. */
  lemma PlannedItem(hash: Hash, w: World, frame: Frame, components: seq<Prediction>, assemblyAt: int,
                    assembled: Prediction, r: Receipt, i: nat)
    returns (item: Provisional)
    requires Planned(hash, w, frame, components, assemblyAt, assembled, r) && i < |r.contributors|
    ensures item.prediction in components && |item.prediction.modelRefs| == 1
    ensures ProvisionalOf(hash, frame, item.prediction, ProfilesBy(hash, w, Cutoff(components)), w.events, assemblyAt)
         == Ok(item)
    ensures r.contributors[i].profileHash
         == if item.profile.None? then None else Some(hash(ProfileBody(item.profile.value)))
  {
    var items, skills, scores := PlannedParts(hash, w, frame, components, assemblyAt, assembled, r);
    ItemsAreComponents(items, components);
    item := items[i];
  }

  lemma PlannedDiffer(hash: Hash, w: World, frame: Frame, components: seq<Prediction>, assemblyAt: int,
                      assembled: Prediction, r: Receipt)
    requires Planned(hash, w, frame, components, assemblyAt, assembled, r)
    ensures forall i, j :: 0 <= i < j < |components| ==> components[i].modelRefs != components[j].modelRefs
  {
    var items, skills, scores := PlannedParts(hash, w, frame, components, assemblyAt, assembled, r);
    ComponentsDiffer(hash, frame, items, components, assemblyAt);
  }

  lemma PlannedCitesBuilt(hash: Hash, w: World, frame: Frame, components: seq<Prediction>, assemblyAt: int,
                          assembled: Prediction, r: Receipt, i: nat)
    requires Planned(hash, w, frame, components, assemblyAt, assembled, r) && i < |r.contributors|
    ensures r.contributors[i].profileHash.Some? ==> exists profile ::
      profile in ProfilesBy(hash, w, Cutoff(components)) && r.contributors[i].profileHash == Some(hash(ProfileBody(profile)))
  {
    var item := PlannedItem(hash, w, frame, components, assemblyAt, assembled, r, i);
    ItemProfileIsBuilt(hash, w, frame, components, item, assemblyAt);
  }

  lemma PlannedIsUninvolved(hash: Hash, w: World, frame: Frame, components: seq<Prediction>, assemblyAt: int,
                            assembled: Prediction, r: Receipt, i: nat, profile: Profile)
    requires Apart(hash, NamedBodies(hash, w, components))
    requires Planned(hash, w, frame, components, assemblyAt, assembled, r) && i < |r.contributors|
    requires profile in ProfilesBy(hash, w, Cutoff(components))
    requires r.contributors[i].profileHash == Some(hash(ProfileBody(profile)))
    ensures Uninvolved(hash, w, profile, components, Cutoff(components))
  {
    var item := PlannedItem(hash, w, frame, components, assemblyAt, assembled, r, i);
    PlannedDiffer(hash, w, frame, components, assemblyAt, assembled, r);
    ItemProfileIsBuilt(hash, w, frame, components, item, assemblyAt);
    assert ProfileBody(profile) in NamedBodies(hash, w, components);
    assert ProfileBody(item.profile.value) in NamedBodies(hash, w, components);
    assert ProfileBody(profile) == ProfileBody(item.profile.value);
    ItemIsUninvolved(hash, w, frame, components, item, assemblyAt);
  }
}

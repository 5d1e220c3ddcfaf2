/** The contract of an assembly receipt (assembly/contracts.py) and of the assembled prediction, for every
    receipt that is planned from valid journals: on the rounded weights, sums and forecasts. */
module ReceiptContract {
  import opened Prelude
  import opened Sorting
  import opened Evidence
  import opened Competence
  import opened CompetenceProfiles
  import opened Weighting
  import opened RoundedClosure
  import opened RoundedForecast
  import opened Assembly
  import opened Lineage
  import opened AssemblyAgreement

  function Weights(contributors: seq<Contributor>): seq<real> {
    seq(|contributors|, i requires 0 <= i < |contributors| => contributors[i].weight)
  }

  predicate ValidContributor(c: Contributor) {
    && c.modelRef != ""
    && 0.0 <= c.sampleStrength <= 1.0
    && 0.5 <= c.rawScore <= 1.5
    && 0.0 < c.weight < 1.0
    && (c.skill.Some? ==> 0.0 <= c.skill.value <= 1.0)
  }

  ghost predicate StrictlySorted(refs: seq<string>) {
    forall i, j :: 0 <= i < j < |refs| ==> TextLt(refs[i], refs[j])
  }

  ghost predicate ValidReceipt(r: Receipt) {
    && r.receiptId != "" && r.frameId != "" && r.targetMetric != "" && r.assembledId != ""
    && r.evidenceClass == ClassOf(r.mode)
    && r.assemblyAt >= 0 && r.predictionAt >= 0 && r.horizon > 0
    && r.resolvesAt == r.predictionAt + r.horizon
    && (r.mode.PROSPECTIVE_SHADOW? ==> r.assemblyAt < r.resolvesAt)
    && |r.contributors| >= 2
    && (forall i :: 0 <= i < |r.contributors| ==> ValidContributor(r.contributors[i]))
    && StrictlySorted(CitedRefs(r.contributors))
    && RoundedSum(Weights(r.contributors)) == 1.0
  }

  // ------------------------------------------------------------------ the order of the contributors

  lemma {:induction false} RefsLeTotal(a: seq<string>, b: seq<string>)
    ensures RefsLe(a, b) || RefsLe(b, a)
  {
    if a != [] && b != [] {
      if a[0] == b[0] {
        RefsLeTotal(a[1..], b[1..]);
      } else {
        TextLeTotal(a[0], b[0]);
      }
    }
  }

  lemma {:induction false} RefsLeTransitive(a: seq<string>, b: seq<string>, c: seq<string>)
    requires RefsLe(a, b) && RefsLe(b, c)
    ensures RefsLe(a, c)
  {
    if a != [] {
      if a[0] == b[0] == c[0] {
        RefsLeTransitive(a[1..], b[1..], c[1..]);
      } else if a[0] != b[0] && b[0] != c[0] {
        TextLeTransitive(a[0], b[0], c[0]);
        if a[0] == c[0] {
          TextLeAntisymmetric(a[0], b[0]);
        }
      }
    }
  }

  lemma ComponentLeIsTotalPreorder()
    ensures TotalPreorder(ComponentLe)
  {
    forall x: Prediction, y: Prediction ensures ComponentLe(x, y) || ComponentLe(y, x) {
      RefsLeTotal(x.modelRefs, y.modelRefs);
    }
    forall x: Prediction, y: Prediction, z: Prediction | ComponentLe(x, y) && ComponentLe(y, z) ensures ComponentLe(x, z) {
      RefsLeTransitive(x.modelRefs, y.modelRefs, z.modelRefs);
    }
  }

  lemma {:induction false} SingleRefsLe(a: seq<string>, b: seq<string>)
    requires |a| == |b| == 1 && RefsLe(a, b)
    ensures TextLe(a[0], b[0])
  {
    TextLeReflexive(a[0]);
  }

  lemma {:induction false} RefsStrictlySorted(hash: Hash, frame: Frame, items: seq<Provisional>, components: seq<Prediction>, assemblyAt: int)
    requires ComponentOrder(hash, frame, items, assemblyAt)
    requires ItemPredictions(items) == Sorted(components, ComponentLe)
    ensures StrictlySorted(ModelRefs(items))
  {
    var ordered := ItemPredictions(items);
    ComponentLeIsTotalPreorder();
    SortedOrdered(components, ComponentLe);
    forall i, j | 0 <= i < j < |items| ensures TextLt(ModelRefs(items)[i], ModelRefs(items)[j]) {
      assert ComponentLe(ordered[i], ordered[j]);
      SingleRefsLe(items[i].prediction.modelRefs, items[j].prediction.modelRefs);
      assert ComponentFault(hash, frame, ordered[j], ordered[0], ordered[..j], assemblyAt).None?;
      assert ordered[..j][i] == ordered[i];
    }
  }

  // ------------------------------------------------------------------ the contract

  lemma ContributorContract(hash: Hash, frame: Frame, item: Provisional, profiles: seq<Profile>, events: seq<ModelEvent>,
                            assemblyAt: int, skill: Option<real>, score: real, weight: real, cutoff: int)
    requires |item.prediction.modelRefs| == 1 && ValidPrediction(item.prediction)
    requires ProvisionalOf(hash, frame, item.prediction, profiles, events, assemblyAt) == Ok(item)
    requires 0.5 <= score <= 1.5 && 0.0 < weight < 1.0 && (skill.Some? ==> 0.0 <= skill.value <= 1.0)
    ensures ValidContributor(CitedAs(hash, item, skill, score, weight, cutoff))
  {
    ProvisionalParts(hash, frame, item.prediction, profiles, events, assemblyAt);
    assert item.prediction.modelRefs[0] in item.prediction.modelRefs;
  }

  /** The weights of a planned receipt are those that Z8 computes for some scores. */
  lemma PlannedWeights(hash: Hash, w: World, frame: Frame, components: seq<Prediction>, assemblyAt: int,
                       assembled: Prediction, r: Receipt) returns (scores: seq<real>)
    requires Planned(hash, w, frame, components, assemblyAt, assembled, r)
    ensures Scores(scores) && |scores| == |components| == |r.contributors| >= 2 && RoundedSum(scores) > 0.0
    ensures Weights(r.contributors) == RoundedWeights(scores)
  {
    var items, skills, s := PlannedParts(hash, w, frame, components, assemblyAt, assembled, r);
    scores := s;
    SortedPermutes(components, ComponentLe);
    assert |ItemPredictions(items)| == |components|;
    CitedWeights(hash, items, skills, scores, Cutoff(components), r);
  }

  lemma {:induction false} CitedWeights(hash: Hash, items: seq<Provisional>, skills: seq<Option<real>>, scores: seq<real>, cutoff: int, r: Receipt)
    requires Scores(scores) && |scores| == |items| >= 2 && RoundedSum(scores) > 0.0
    requires forall i :: 0 <= i < |items| ==> |items[i].prediction.modelRefs| == 1
    requires BuiltContributors(hash, items, skills, scores, cutoff, r)
    ensures Weights(r.contributors) == RoundedWeights(scores)
  {
    forall i | 0 <= i < |items| ensures Weights(r.contributors)[i] == RoundedWeights(scores)[i] {
      assert r.contributors[i] == CitedAs(hash, items[i], skills[i], scores[i], RoundedWeights(scores)[i], cutoff);
    }
  }

  lemma PlannedContributorIsValid(hash: Hash, w: World, frame: Frame, components: seq<Prediction>, assemblyAt: int,
                                  assembled: Prediction, r: Receipt, i: nat)
    requires ValidJournal(w.predictions) && Planned(hash, w, frame, components, assemblyAt, assembled, r)
    requires i < |r.contributors| && |components| <= MOST_COMPONENTS
    ensures ValidContributor(r.contributors[i])
  {
    var items, skills, scores := PlannedParts(hash, w, frame, components, assemblyAt, assembled, r);
    ItemsAreComponents(items, components);
    DurableComponentsAreValid(w, components, assemblyAt);
    SortedPermutes(components, ComponentLe);
    assert |ItemPredictions(items)| == |components|;
    Z8Closes(scores);
    ContributorContract(hash, frame, items[i], ProfilesBy(hash, w, Cutoff(components)), w.events, assemblyAt,
                        skills[i], scores[i], RoundedWeights(scores)[i], Cutoff(components));
  }

  lemma RefsTogether(hash: Hash, w: World, frame: Frame, components: seq<Prediction>, assemblyAt: int,
                     assembled: Prediction, r: Receipt)
    requires Planned(hash, w, frame, components, assemblyAt, assembled, r)
    ensures StrictlySorted(CitedRefs(r.contributors))
  {
    var items, skills, scores := PlannedParts(hash, w, frame, components, assemblyAt, assembled, r);
    RefsStrictlySorted(hash, frame, items, components, assemblyAt);
    BuiltRefs(hash, items, skills, scores, Cutoff(components), r);
  }

  lemma {:induction false} BuiltRefs(hash: Hash, items: seq<Provisional>, skills: seq<Option<real>>, scores: seq<real>, cutoff: int, r: Receipt)
    requires Scores(scores) && |scores| == |items| >= 2 && RoundedSum(scores) > 0.0
    requires forall i :: 0 <= i < |items| ==> |items[i].prediction.modelRefs| == 1
    requires BuiltContributors(hash, items, skills, scores, cutoff, r)
    ensures CitedRefs(r.contributors) == ModelRefs(items)
  {
    RefsAgree(items, r.contributors);
  }

  /** The first item, which gives the receipt its contract, is a durable component. */
  lemma PlannedContract(hash: Hash, w: World, frame: Frame, components: seq<Prediction>, assemblyAt: int,
                        assembled: Prediction, r: Receipt)
    returns (first: Prediction)
    requires ValidJournal(w.predictions) && Planned(hash, w, frame, components, assemblyAt, assembled, r)
    ensures ValidPrediction(first) && OnContract(hash, frame, r, first)
    ensures BuiltReceipt(hash, frame, assemblyAt, assembled, r) && r.resolvesAt == first.resolvesAt
    ensures |r.contributors| >= 2
    ensures first.mode.PROSPECTIVE_SHADOW? ==> frame.status.QUALIFIED? && assemblyAt < first.resolvesAt
  {
    var items, skills, scores := PlannedParts(hash, w, frame, components, assemblyAt, assembled, r);
    DurableComponentsAreValid(w, components, assemblyAt);
    ItemsAreComponents(items, components);
    first := items[0].prediction;
    BuiltOnContract(hash, frame, items, skills, scores, assemblyAt, Cutoff(components), assembled, r);
  }

  /** Every planned receipt satisfies the receipt contract; its rounded weights sum to exactly 1. */
  lemma PlannedReceiptIsValid(hash: Hash, w: World, frame: Frame, components: seq<Prediction>, assemblyAt: int)
    requires ValidJournal(w.predictions) && frame.frameId != "" && |components| <= MOST_COMPONENTS
    requires Plan(hash, w, frame, components, assemblyAt).Ok?
    ensures ValidReceipt(Plan(hash, w, frame, components, assemblyAt).value.1)
  {
    var (assembled, r) := Plan(hash, w, frame, components, assemblyAt).value;
    PlanIsPlanned(hash, w, frame, components, assemblyAt);
    ReceiptIsValid(hash, w, frame, components, assemblyAt, assembled, r);
  }

  lemma ReceiptIsValid(hash: Hash, w: World, frame: Frame, components: seq<Prediction>, assemblyAt: int,
                       assembled: Prediction, r: Receipt)
    requires ValidJournal(w.predictions) && frame.frameId != "" && |components| <= MOST_COMPONENTS
    requires Planned(hash, w, frame, components, assemblyAt, assembled, r)
    ensures ValidReceipt(r)
  {
    var first := PlannedContract(hash, w, frame, components, assemblyAt, assembled, r);
    RefsTogether(hash, w, frame, components, assemblyAt, assembled, r);
    var scores := PlannedWeights(hash, w, frame, components, assemblyAt, assembled, r);
    Z8Closes(scores);
    forall i | 0 <= i < |r.contributors| ensures ValidContributor(r.contributors[i]) {
      PlannedContributorIsValid(hash, w, frame, components, assemblyAt, assembled, r, i);
    }
  }

  /** All component moves, and all component probabilities, lie in a range. */
  ghost predicate Ranges(components: seq<Prediction>, lowMove: real, highMove: real, lowProbability: real, highProbability: real) {
    forall p :: p in components ==>
      lowMove <= p.expectedMove <= highMove && lowProbability <= p.probabilityPositive <= highProbability
  }

  /** The rounded forecast of component forecasts in their ranges, in the order of the items. */
  lemma PlannedForecast(hash: Hash, w: World, frame: Frame, components: seq<Prediction>, assemblyAt: int,
                        assembled: Prediction, r: Receipt,
                        lowMove: real, highMove: real, lowProbability: real, highProbability: real)
    returns (moves: seq<real>, probabilities: seq<real>)
    requires Planned(hash, w, frame, components, assemblyAt, assembled, r)
    requires Ranges(components, lowMove, highMove, lowProbability, highProbability)
    ensures |moves| == |probabilities| == |r.contributors| == |Weights(r.contributors)|
    ensures forall i :: 0 <= i < |moves| ==> lowMove <= moves[i] <= highMove
    ensures forall i :: 0 <= i < |moves| ==> lowProbability <= probabilities[i] <= highProbability
    ensures assembled.expectedMove == Forecast(moves, Weights(r.contributors))
    ensures assembled.probabilityPositive == Forecast(probabilities, Weights(r.contributors))
  {
    var items, skills, scores := PlannedParts(hash, w, frame, components, assemblyAt, assembled, r);
    moves, probabilities := ExpectedMoves(items), Assembly.Probabilities(items);
    ItemRanges(items, components, lowMove, highMove, lowProbability, highProbability);
    CitedWeights(hash, items, skills, scores, Cutoff(components), r);
    BuiltForecast(hash, frame, items, skills, scores, assemblyAt, Cutoff(components), assembled, r);
  }

  lemma {:induction false} ItemRanges(items: seq<Provisional>, components: seq<Prediction>,
                   lowMove: real, highMove: real, lowProbability: real, highProbability: real)
    requires ItemPredictions(items) == Sorted(components, ComponentLe)
    requires Ranges(components, lowMove, highMove, lowProbability, highProbability)
    ensures forall i :: 0 <= i < |items| ==> lowMove <= ExpectedMoves(items)[i] <= highMove
    ensures forall i :: 0 <= i < |items| ==> lowProbability <= Assembly.Probabilities(items)[i] <= highProbability
  {
    ItemsAreComponents(items, components);
  }

  lemma BuiltForecast(hash: Hash, frame: Frame, items: seq<Provisional>, skills: seq<Option<real>>, scores: seq<real>,
                      assemblyAt: int, cutoff: int, assembled: Prediction, r: Receipt)
    requires Built(hash, frame, items, skills, scores, assemblyAt, cutoff, assembled, r)
    ensures |items| == |r.contributors|
    ensures assembled.expectedMove == Forecast(ExpectedMoves(items), RoundedWeights(scores))
    ensures assembled.probabilityPositive == Forecast(Assembly.Probabilities(items), RoundedWeights(scores))
  {
  }

  /** The value lies between what the weights make of the lowest and of the highest component forecast: in
      the range itself where the weights keep its ends, and up to the slack of rounding always. */
  ghost predicate InRange(x: real, weights: seq<real>, low: real, high: real) {
    && Forecast(Constant(low, |weights|), weights) <= x <= Forecast(Constant(high, |weights|), weights)
    && (KeepsEnds(weights, low, high) ==> low <= x <= high)
    && low - SLACK * Size(low) <= x <= high + SLACK * Size(high)
  }

  lemma WeightedInRange(x: seq<real>, weights: seq<real>, low: real, high: real)
    requires |x| == |weights| && 2 <= |weights| <= MOST_COMPONENTS && Closed(weights)
    requires forall i :: 0 <= i < |x| ==> low <= x[i] <= high
    ensures InRange(Forecast(x, weights), weights, low, high)
  {
    ForecastBetween(x, weights, low, high);
    ForecastNear(x, weights, low, high);
  }

  lemma PlannedInRange(hash: Hash, w: World, frame: Frame, components: seq<Prediction>, assemblyAt: int,
                       assembled: Prediction, r: Receipt,
                       lowMove: real, highMove: real, lowProbability: real, highProbability: real)
    requires Planned(hash, w, frame, components, assemblyAt, assembled, r) && |components| <= MOST_COMPONENTS
    requires Ranges(components, lowMove, highMove, lowProbability, highProbability)
    ensures InRange(assembled.expectedMove, Weights(r.contributors), lowMove, highMove)
    ensures InRange(assembled.probabilityPositive, Weights(r.contributors), lowProbability, highProbability)
    ensures 0.0 <= lowProbability && highProbability <= 1.0 ==> 0.0 <= assembled.probabilityPositive <= 1.0
  {
    var moves, probabilities := PlannedForecast(hash, w, frame, components, assemblyAt, assembled, r,
                                                lowMove, highMove, lowProbability, highProbability);
    var scores := PlannedWeights(hash, w, frame, components, assemblyAt, assembled, r);
    Z8Closes(scores);
    WeightedInRange(moves, Weights(r.contributors), lowMove, highMove);
    WeightedInRange(probabilities, Weights(r.contributors), lowProbability, highProbability);
    WeightsAreRounded(scores);
    if 0.0 <= lowProbability && highProbability <= 1.0 {
      ProbabilityStays(probabilities, Weights(r.contributors));
    }
  }

  /** The weights of a planned receipt keep every forecast in the range of its components exactly when they
      keep the range's two ends. */
  lemma PlannedRangeExactly(hash: Hash, w: World, frame: Frame, components: seq<Prediction>, assemblyAt: int, low: real, high: real)
    requires Plan(hash, w, frame, components, assemblyAt).Ok? && |components| <= MOST_COMPONENTS && low <= high
    ensures
      var weights := Weights(Plan(hash, w, frame, components, assemblyAt).value.1.contributors);
      (forall x :: |x| == |weights| && Inside(x, low, high) ==> low <= Forecast(x, weights) <= high)
      <==> KeepsEnds(weights, low, high)
  {
    var (assembled, r) := Plan(hash, w, frame, components, assemblyAt).value;
    PlanIsPlanned(hash, w, frame, components, assemblyAt);
    var scores := PlannedWeights(hash, w, frame, components, assemblyAt, assembled, r);
    Z8Closes(scores);
    RangeKeptExactly(Weights(r.contributors), low, high);
  }

  /** The assembled forecast lies between what its weights make of the lowest and of the highest component
      forecast: in the range where they keep its ends, outside it by no more than the slack where they do
      not. A probability never leaves [0, 1]. */
  lemma AssembledForecast(hash: Hash, w: World, frame: Frame, components: seq<Prediction>, assemblyAt: int,
                          lowMove: real, highMove: real, lowProbability: real, highProbability: real)
    requires Plan(hash, w, frame, components, assemblyAt).Ok? && |components| <= MOST_COMPONENTS
    requires Ranges(components, lowMove, highMove, lowProbability, highProbability)
    ensures
      var (assembled, r) := Plan(hash, w, frame, components, assemblyAt).value;
      && InRange(assembled.expectedMove, Weights(r.contributors), lowMove, highMove)
      && InRange(assembled.probabilityPositive, Weights(r.contributors), lowProbability, highProbability)
      && (0.0 <= lowProbability && highProbability <= 1.0 ==> 0.0 <= assembled.probabilityPositive <= 1.0)
  {
    var (assembled, r) := Plan(hash, w, frame, components, assemblyAt).value;
    PlanIsPlanned(hash, w, frame, components, assemblyAt);
    PlannedInRange(hash, w, frame, components, assemblyAt, assembled, r, lowMove, highMove, lowProbability, highProbability);
  }

  lemma PlannedRefs(hash: Hash, w: World, frame: Frame, components: seq<Prediction>, assemblyAt: int,
                    assembled: Prediction, r: Receipt)
    requires ValidJournal(w.predictions) && Planned(hash, w, frame, components, assemblyAt, assembled, r)
    ensures DistinctNonEmpty(assembled.modelRefs)
    ensures assembled.interval.Some? ==> assembled.interval.value.low <= assembled.interval.value.high
  {
    var items, skills, scores := PlannedParts(hash, w, frame, components, assemblyAt, assembled, r);
    ItemsAreComponents(items, components);
    DurableComponentsAreValid(w, components, assemblyAt);
    RefsStrictlySorted(hash, frame, items, components, assemblyAt);
    SortedRefsAreDistinct(items);
    EnvelopeIsOrdered(items);
  }

  /** The assembled prediction satisfies the prediction contract. */
  lemma AssembledIsValid(hash: Hash, w: World, frame: Frame, components: seq<Prediction>, assemblyAt: int)
    requires ValidJournal(w.predictions) && |components| <= MOST_COMPONENTS
    requires Plan(hash, w, frame, components, assemblyAt).Ok?
    ensures ValidPrediction(Plan(hash, w, frame, components, assemblyAt).value.0)
  {
    var (assembled, r) := Plan(hash, w, frame, components, assemblyAt).value;
    PlanIsPlanned(hash, w, frame, components, assemblyAt);
    PlannedPredictionIsValid(hash, w, frame, components, assemblyAt, assembled, r);
  }

  lemma PlannedPredictionIsValid(hash: Hash, w: World, frame: Frame, components: seq<Prediction>, assemblyAt: int,
                                 assembled: Prediction, r: Receipt)
    requires ValidJournal(w.predictions) && Planned(hash, w, frame, components, assemblyAt, assembled, r)
    requires |components| <= MOST_COMPONENTS
    ensures ValidPrediction(assembled)
  {
    DurableComponentsAreValid(w, components, assemblyAt);
    PlannedRefs(hash, w, frame, components, assemblyAt, assembled, r);
    PlannedProbability(hash, w, frame, components, assemblyAt, assembled, r);
    var first := PlannedContract(hash, w, frame, components, assemblyAt, assembled, r);
    PlannedBase(hash, w, frame, components, assemblyAt, assembled, r);
  }

  lemma PlannedBase(hash: Hash, w: World, frame: Frame, components: seq<Prediction>, assemblyAt: int,
                    assembled: Prediction, r: Receipt)
    requires Planned(hash, w, frame, components, assemblyAt, assembled, r)
    ensures assembled.predictionId != "" && assembled.evidenceClass == ClassOf(assembled.mode)
    ensures assembled.targetMetric == TARGET_METRIC && assembled.frameStatus == frame.status && !frame.status.UNAVAILABLE?
    ensures assembled.createdAt == assemblyAt && assembled.resolvesAt == assembled.predictionAt + assembled.horizon
    ensures assembled.referencePrice.value > 0.0
  {
    var items, skills, scores := PlannedParts(hash, w, frame, components, assemblyAt, assembled, r);
  }

  lemma PlannedProbability(hash: Hash, w: World, frame: Frame, components: seq<Prediction>, assemblyAt: int,
                           assembled: Prediction, r: Receipt)
    requires ValidJournal(w.predictions) && Planned(hash, w, frame, components, assemblyAt, assembled, r)
    requires |components| <= MOST_COMPONENTS
    ensures 0.0 <= assembled.probabilityPositive <= 1.0
  {
    var low, high := LowestMove(components), HighestMove(components);
    DurableComponentsAreValid(w, components, assemblyAt);
    assert Ranges(components, low, high, 0.0, 1.0);
    PlannedInRange(hash, w, frame, components, assemblyAt, assembled, r, low, high, 0.0, 1.0);
  }

  function LowestMove(components: seq<Prediction>): (m: real)
    ensures forall i :: 0 <= i < |components| ==> m <= components[i].expectedMove
  {
    if components == [] then 0.0
    else MinReal(LowestMove(components[..|components| - 1]), components[|components| - 1].expectedMove)
  }

  function HighestMove(components: seq<Prediction>): (m: real)
    ensures forall i :: 0 <= i < |components| ==> components[i].expectedMove <= m
  {
    if components == [] then 0.0
    else MaxReal(HighestMove(components[..|components| - 1]), components[|components| - 1].expectedMove)
  }

  lemma SortedRefsAreDistinct(items: seq<Provisional>)
    requires items != [] && forall i :: 0 <= i < |items| ==> |items[i].prediction.modelRefs| == 1
                                                             && ValidPrediction(items[i].prediction)
    requires StrictlySorted(ModelRefs(items))
    ensures DistinctNonEmpty(ModelRefs(items))
  {
    forall i | 0 <= i < |items| ensures ModelRefs(items)[i] != "" {
      assert items[i].prediction.modelRefs[0] in items[i].prediction.modelRefs;
    }
  }

  lemma {:induction false} EnvelopeIsOrdered(items: seq<Provisional>)
    requires items != [] && forall i :: 0 <= i < |items| ==> ValidPrediction(items[i].prediction)
    ensures Envelope(items).Some? ==> Envelope(items).value.low <= Envelope(items).value.high
  {
    if Envelope(items).Some? {
      WidestCovers(Intervals(items), 0);
      assert Intervals(items)[0] == items[0].prediction.interval;
    }
  }
}

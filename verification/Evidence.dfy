/** The immutable artifacts that prediction, evaluation and assembly exchange, and the shared
    canonical hash. The hash is a parameter everywhere; a lemma that needs it to tell certain
    bodies apart names them. Decimal texts are the numbers they denote. */
module Evidence {
  import opened Prelude

  datatype Mode = PROSPECTIVE_SHADOW | HISTORICAL_REPLAY

  datatype EvidenceClass = FORWARD_EVALUABLE | RESEARCH_ONLY

  datatype FrameStatus = QUALIFIED | DEGRADED | UNAVAILABLE

  datatype Instrument = Instrument(canonicalId: string, marketType: string, details: string)

  /** The aggregate part of a representation's state that the target price is read from. */
  datatype Aggregate = Aggregate(
    bookNormal: bool, bestBid: Option<real>, bestAsk: Option<real>, meanVenueMidpoint: Option<real>)

  datatype Frame = Frame(
    frameId: string, instrument: Instrument, representationType: string, status: FrameStatus,
    knownAt: int, cutoffAt: int, aggregate: Option<Aggregate>)

  datatype Price = Price(value: real, source: string)

  /** representation_target_price: the cross-venue midpoint, else the mean venue midpoint. */
  function TargetPrice(frame: Frame): (p: Option<Price>)
    ensures p.Some? ==> p.value.value > 0.0
  {
    if frame.aggregate.None? then None
    else
      var a := frame.aggregate.value;
      if a.bookNormal && a.bestBid.Some? && a.bestAsk.Some? then
        var midpoint := (a.bestBid.value + a.bestAsk.value) / 2.0;
        if midpoint <= 0.0 then None else Some(Price(midpoint, "CROSS_VENUE_BBO_MIDPOINT_V1"))
      else if a.meanVenueMidpoint.Some? && a.meanVenueMidpoint.value > 0.0 then
        Some(Price(a.meanVenueMidpoint.value, "MEAN_QUALIFIED_VENUE_MIDPOINT_V1"))
      else None
  }

  const TARGET_METRIC := "ZLJ_AGGREGATE_MIDPOINT_RETURN_BPS_V1"

  datatype Interval = Interval(low: real, high: real)

  datatype Prediction = Prediction(
    predictionId: string, mode: Mode, evidenceClass: EvidenceClass, instrument: Instrument,
    frameId: string, frameHash: string, frameStatus: FrameStatus,
    predictionAt: int, createdAt: int, horizon: int, resolvesAt: int, targetMetric: string,
    referencePrice: Price, expectedMove: real, probabilityPositive: real,
    interval: Option<Interval>, modelRefs: seq<string>)

  function ClassOf(mode: Mode): EvidenceClass {
    if mode.PROSPECTIVE_SHADOW? then FORWARD_EVALUABLE else RESEARCH_ONLY
  }

  ghost predicate DistinctNonEmpty(refs: seq<string>) {
    refs != [] && "" !in refs && Distinct(refs)
  }

  /** The Prediction contract: what its constructor enforces. */
  ghost predicate ValidPrediction(p: Prediction) {
    && p.predictionId != ""
    && p.evidenceClass == ClassOf(p.mode)
    && p.targetMetric == TARGET_METRIC
    && !p.frameStatus.UNAVAILABLE?
    && p.predictionAt >= 0 && p.createdAt >= 0 && p.horizon > 0
    && p.resolvesAt == p.predictionAt + p.horizon
    && (p.mode.PROSPECTIVE_SHADOW? ==> p.frameStatus.QUALIFIED? && p.createdAt <= p.resolvesAt)
    && p.referencePrice.value > 0.0
    && 0.0 <= p.probabilityPositive <= 1.0
    && (p.interval.Some? ==> p.interval.value.low <= p.interval.value.high)
    && DistinctNonEmpty(p.modelRefs)
  }

  datatype Verdict = RESOLVED(realizedReturn: real, actualPositive: bool) | UNRESOLVABLE

  datatype Outcome = Outcome(predictionId: string, decidedAt: int, verdict: Verdict, lineage: string)

  datatype ModelState =
    | CANDIDATE | REPLAY_QUALIFIED | WALK_FORWARD_QUALIFIED | SHADOW | MODEL_QUALIFIED
    | MODEL_DEGRADED | QUARANTINED | SUPERSEDED

  datatype ModelDefinition = ModelDefinition(
    requiredRepresentationType: string, targetMetric: string, supportedHorizons: seq<int>)

  datatype ModelChange =
    | Registered(definition: ModelDefinition, definitionHash: string, artifactHash: string)
    | Transitioned(toState: ModelState)

  datatype ModelEvent = ModelEvent(modelRef: string, occurredAt: int, change: ModelChange, eventHash: string)

  datatype Metrics = Metrics(
    meanAbsoluteError: Option<real>, meanSquaredError: Option<real>, bias: Option<real>,
    directionalAccuracy: Option<real>, brierScore: Option<real>, calibrationGap: Option<real>,
    intervalCoverage: Option<real>, sampleStrength: real)

  datatype Segment = Segment(
    modelRef: string, instrumentId: string, horizon: int, targetMetric: string, evidenceClass: EvidenceClass)

  datatype Profile = Profile(
    segment: Segment, asOf: int, predictionCount: nat, resolvedCount: nat, unresolvableCount: nat,
    pendingCount: nat, metrics: Metrics, predictionHashes: seq<string>, outcomeHashes: seq<string>)

  datatype CompetenceStatus = MATCHED | NO_PRIOR_MATCHED_COMPETENCE

  datatype Contributor = Contributor(
    modelRef: string, registryState: ModelState, registryEventHash: string,
    definitionHash: string, artifactHash: string, componentId: string, componentHash: string,
    profileHash: Option<string>, profileAsOf: Option<int>, competenceStatus: CompetenceStatus,
    competenceCutoff: Option<int>, resolvedCount: nat, sampleStrength: real, skill: Option<real>,
    meanAbsoluteError: Option<real>, rawScore: real, weight: real)

  datatype Receipt = Receipt(
    receiptId: string, assemblyAt: int, mode: Mode, evidenceClass: EvidenceClass,
    frameId: string, frameHash: string, predictionAt: int, horizon: int, resolvesAt: int,
    targetMetric: string, assembledId: string, assembledHash: string, contributors: seq<Contributor>)

  /** Everything that canonical_hash is applied to here. */
  datatype Body =
    | FrameBody(frame: Frame)
    | PredictionBody(prediction: Prediction)
    | OutcomeBody(outcome: Outcome)
    | ProfileBody(profile: Profile)
    | PredictionMaterial(frameHash: string, mode: Mode, predictionAt: int, createdAt: int, horizon: int,
                         expectedMove: real, probability: real, interval: Option<Interval>, refs: seq<string>)
    | ReceiptMaterial(assemblyAt: int, assembledHash: string, contributors: seq<Contributor>)

  type Hash = Body -> string

  /** The hash tells the given bodies apart. */
  ghost predicate Apart(hash: Hash, bodies: set<Body>) {
    forall a, b :: a in bodies && b in bodies && hash(a) == hash(b) ==> a == b
  }

  function FrameBodies(frames: seq<Frame>): set<Body> { set f | f in frames :: FrameBody(f) }
}

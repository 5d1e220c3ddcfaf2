/** Resolution of question-bound predictions: evaluation/question_resolvers.py (midpoint),
    evaluation/question_path_resolvers.py (fixed grid) and the contract of question_outcome.py. */
module QuestionResolution {
  import opened Prelude
  import opened Sorting
  import opened Evidence
  import opened Resolution

  datatype Timescale = MICRO | SHORT | SESSION | MACRO_STRUCTURAL

  datatype SourceRef = SourceRef(
    frameId: string, frameHash: string, instrumentId: string, representationType: string, marketType: string,
    status: FrameStatus, cutoffAt: int, knownAt: int)

  datatype View = View(timescale: Timescale, sourceFrames: seq<SourceRef>)

  datatype Experience = Experience(
    experienceId: string, economicRootId: string, cutoffAt: int, status: FrameStatus, views: seq<View>, contentHash: string)

  datatype ArtifactRef = ArtifactRef(artifactType: string, artifactId: string, contentHash: string)

  datatype Question = DIRECTION_10S | MAGNITUDE_30S | VOLATILITY_60S | FRAGILITY_MAE_60S | OTHER_QUESTION

  datatype QuestionPrediction = QuestionPrediction(
    predictionId: string, question: Question, mode: Mode, subjectId: string, resolverPolicy: string,
    cutoffAt: int, horizon: int, resolvesAt: int, maxLag: int, artifacts: seq<ArtifactRef>)

  /** What the constructor of a question-bound prediction enforces of its timing and its subject. */
  predicate ValidQuestion(p: QuestionPrediction) {
    && p.cutoffAt >= 0 && p.horizon > 0 && p.maxLag >= 0 && p.resolvesAt == p.cutoffAt + p.horizon
    && p.subjectId != ""
  }

  /** The timing that the constructor of a representation frame enforces. */
  predicate ValidFrame(f: Frame) { f.frameId != "" && 0 <= f.knownAt <= f.cutoffAt }

  /** A frame id names one frame among those supplied. */
  ghost predicate IdsDetermine(frames: seq<Frame>) {
    forall a, b :: a in frames && b in frames && a.frameId == b.frameId ==> a == b
  }

  datatype Refusal =
    | NoBoundExperience | ExperienceHashDiffers | RootDiffers | CutoffDiffers | UnqualifiedBaseline
    | NotOneView | AmbiguousInstrument | BaselineHashDiffers | BaselineInstrumentDiffers | BaselineNotQualified
    | NotOneBaseline | UnsupportedQuestion | PolicyDiffers | LateForward | NegativeTime | NoMidpoint
    | NotKnowable | StillOpen | GridDoesNotDivide | OutcomeContract

  // ------------------------------------------------------------------ the baseline

  predicate Binds(a: ArtifactRef, e: Experience) {
    a.artifactType == "MARKET_EXPERIENCE" && a.artifactId == e.experienceId
  }

  function BoundRefs(artifacts: seq<ArtifactRef>, e: Experience): seq<ArtifactRef> {
    if artifacts == [] then []
    else
      var n := |artifacts| - 1;
      BoundRefs(artifacts[..n], e) + (if Binds(artifacts[n], e) then [artifacts[n]] else [])
  }

  function ExperienceFault(p: QuestionPrediction, e: Experience): Option<Refusal> {
    var refs := BoundRefs(p.artifacts, e);
    if |refs| != 1 then Some(NoBoundExperience)
    else if refs[0].contentHash != e.contentHash then Some(ExperienceHashDiffers)
    else if e.economicRootId != p.subjectId then Some(RootDiffers)
    else if e.cutoffAt != p.cutoffAt then Some(CutoffDiffers)
    else if p.mode.PROSPECTIVE_SHADOW? && !e.status.QUALIFIED? then Some(UnqualifiedBaseline)
    else None
  }

  function ViewsOf(views: seq<View>, t: Timescale): seq<View> {
    if views == [] then []
    else
      var n := |views| - 1;
      ViewsOf(views[..n], t) + (if views[n].timescale == t then [views[n]] else [])
  }

  predicate SpotAtCutoff(r: SourceRef, cutoffAt: int) {
    && r.representationType == "INSTRUMENT_STATE" && r.marketType == "SPOT"
    && r.status.QUALIFIED? && r.cutoffAt == cutoffAt
  }

  function SpotRefs(refs: seq<SourceRef>, cutoffAt: int): (s: seq<SourceRef>)
    ensures forall r :: r in s ==> r in refs && SpotAtCutoff(r, cutoffAt)
  {
    if refs == [] then []
    else
      var n := |refs| - 1;
      SpotRefs(refs[..n], cutoffAt) + (if SpotAtCutoff(refs[n], cutoffAt) then [refs[n]] else [])
  }

  predicate OneInstrument(refs: seq<SourceRef>) {
    refs != [] && forall i :: 0 <= i < |refs| ==> refs[i].instrumentId == refs[0].instrumentId
  }

  /** What one source reference makes of one supplied frame. */
  function BaselineFault(hash: Hash, r: SourceRef, f: Frame, instrumentId: string): Option<Refusal> {
    if hash(FrameBody(f)) != r.frameHash then Some(BaselineHashDiffers)
    else if f.instrument.canonicalId != instrumentId then Some(BaselineInstrumentDiffers)
    else if f.representationType != "INSTRUMENT_STATE" || !f.status.QUALIFIED? then Some(BaselineNotQualified)
    else None
  }

  function CandidatesFor(hash: Hash, r: SourceRef, frames: seq<Frame>, instrumentId: string): (c: Result<seq<Frame>, Refusal>)
    ensures c.Ok? ==> forall f :: f in c.value ==>
      f in frames && f.frameId == r.frameId && BaselineFault(hash, r, f, instrumentId).None?
  {
    if frames == [] then Ok([])
    else
      var n := |frames| - 1;
      match CandidatesFor(hash, r, frames[..n], instrumentId)
      case Err(e) => Err(e)
      case Ok(before) =>
        if frames[n].frameId != r.frameId then Ok(before)
        else match BaselineFault(hash, r, frames[n], instrumentId)
          case Some(e) => Err(e)
          case None => Ok(before + [frames[n]])
  }

  ghost predicate Grounded(hash: Hash, refs: seq<SourceRef>, frames: seq<Frame>, f: Frame) {
    f in frames && exists r :: r in refs && f.frameId == r.frameId && hash(FrameBody(f)) == r.frameHash
                               && f.representationType == "INSTRUMENT_STATE" && f.status.QUALIFIED?
  }

  function Candidates(hash: Hash, refs: seq<SourceRef>, frames: seq<Frame>, instrumentId: string): (c: Result<seq<Frame>, Refusal>)
    ensures c.Ok? ==> forall f :: f in c.value ==> Grounded(hash, refs, frames, f)
  {
    if refs == [] then Ok([])
    else
      var n := |refs| - 1;
      match Candidates(hash, refs[..n], frames, instrumentId)
      case Err(e) => Err(e)
      case Ok(before) =>
        assert forall f :: f in before ==> Grounded(hash, refs, frames, f);
        match CandidatesFor(hash, refs[n], frames, instrumentId)
        case Err(e) => Err(e)
        case Ok(more) => Ok(before + more)
  }

  predicate OneFrame(hash: Hash, candidates: seq<Frame>) {
    candidates != [] && forall i :: 0 <= i < |candidates| ==>
      candidates[i].frameId == candidates[0].frameId && hash(FrameBody(candidates[i])) == hash(FrameBody(candidates[0]))
  }

  /** _baseline_spot_frame. */
  function Baseline(hash: Hash, p: QuestionPrediction, e: Experience, frames: seq<Frame>, t: Timescale)
    : Result<Frame, Refusal>
  {
    var views := ViewsOf(e.views, t);
    if |views| != 1 then Err(NotOneView)
    else
      var refs := SpotRefs(views[0].sourceFrames, p.cutoffAt);
      if !OneInstrument(refs) then Err(AmbiguousInstrument)
      else match Candidates(hash, refs, frames, refs[0].instrumentId)
        case Err(f) => Err(f)
        case Ok(candidates) =>
          if OneFrame(hash, candidates) then Ok(candidates[|candidates| - 1]) else Err(NotOneBaseline)
  }

  /** The loops of the source: for every reference, every frame with its id, the first flaw raising. */
  method BaselineSpotFrame(hash: Hash, p: QuestionPrediction, e: Experience, frames: seq<Frame>, t: Timescale)
    returns (r: Result<Frame, Refusal>)
    ensures r == Baseline(hash, p, e, frames, t)
  {
    var views := ViewsOf(e.views, t);
    if |views| != 1 { return Err(NotOneView); }
    var refs := SpotRefs(views[0].sourceFrames, p.cutoffAt);
    if !OneInstrument(refs) { return Err(AmbiguousInstrument); }
    var candidates: seq<Frame>, i := [], 0;
    ghost var whole := Candidates(hash, refs, frames, refs[0].instrumentId);
    while i < |refs|
      invariant 0 <= i <= |refs| && Candidates(hash, refs[..i], frames, refs[0].instrumentId) == Ok(candidates)
    {
      assert refs[..i + 1][..i] == refs[..i];
      var found := FramesOf(hash, refs[i], frames, refs[0].instrumentId);
      if found.Err? {
        FirstRefusal(hash, refs, frames, refs[0].instrumentId, i + 1);
        return Err(found.error);
      }
      candidates := candidates + found.value;
      i := i + 1;
    }
    assert refs[..i] == refs;
    return if OneFrame(hash, candidates) then Ok(candidates[|candidates| - 1]) else Err(NotOneBaseline);
  }

  method FramesOf(hash: Hash, ref: SourceRef, frames: seq<Frame>, instrumentId: string) returns (r: Result<seq<Frame>, Refusal>)
    ensures r == CandidatesFor(hash, ref, frames, instrumentId)
  {
    var found: seq<Frame>, i := [], 0;
    while i < |frames|
      invariant 0 <= i <= |frames| && CandidatesFor(hash, ref, frames[..i], instrumentId) == Ok(found)
    {
      assert frames[..i + 1][..i] == frames[..i];
      if frames[i].frameId == ref.frameId {
        var fault := BaselineFault(hash, ref, frames[i], instrumentId);
        if fault.Some? {
          FirstFlaw(hash, ref, frames, instrumentId, i + 1);
          return Err(fault.value);
        }
        found := found + [frames[i]];
      }
      i := i + 1;
    }
    assert frames[..i] == frames;
    r := Ok(found);
  }

  lemma {:induction false} FirstFlaw(hash: Hash, ref: SourceRef, frames: seq<Frame>, instrumentId: string, n: nat)
    requires n <= |frames| && CandidatesFor(hash, ref, frames[..n], instrumentId).Err?
    ensures CandidatesFor(hash, ref, frames, instrumentId) == CandidatesFor(hash, ref, frames[..n], instrumentId)
    decreases |frames|
  {
    if n == |frames| {
      assert frames[..n] == frames;
    } else {
      assert frames[..|frames| - 1][..n] == frames[..n];
      FirstFlaw(hash, ref, frames[..|frames| - 1], instrumentId, n);
    }
  }

  lemma {:induction false} FirstRefusal(hash: Hash, refs: seq<SourceRef>, frames: seq<Frame>, instrumentId: string, n: nat)
    requires n <= |refs| && Candidates(hash, refs[..n], frames, instrumentId).Err?
    ensures Candidates(hash, refs, frames, instrumentId) == Candidates(hash, refs[..n], frames, instrumentId)
    decreases |refs|
  {
    if n == |refs| {
      assert refs[..n] == refs;
    } else {
      assert refs[..|refs| - 1][..n] == refs[..n];
      FirstRefusal(hash, refs[..|refs| - 1], frames, instrumentId, n);
    }
  }

  // ------------------------------------------------------------------ what a built experience refers to

  /** _frame_ref of experience/builder.py: a reference repeats its frame, cutoff and known time included. */
  function FrameRef(hash: Hash, f: Frame): SourceRef {
    SourceRef(f.frameId, hash(FrameBody(f)), f.instrument.canonicalId, f.representationType, f.instrument.marketType,
              f.status, f.cutoffAt, f.knownAt)
  }

  /** Every source reference of the experience was made by the builder from one of the sources. */
  ghost predicate BuiltFrom(hash: Hash, e: Experience, sources: seq<Frame>) {
    forall v, r :: v in e.views && r in v.sourceFrames ==> exists f :: f in sources && r == FrameRef(hash, f)
  }

  lemma {:induction false} ViewsOfIn(views: seq<View>, t: Timescale)
    ensures forall v :: v in ViewsOf(views, t) ==> v in views && v.timescale == t
  {
    if views != [] {
      ViewsOfIn(views[..|views| - 1], t);
    }
  }

  lemma {:induction false} BaselineIsGrounded(hash: Hash, p: QuestionPrediction, e: Experience, frames: seq<Frame>, t: Timescale)
    requires Baseline(hash, p, e, frames, t).Ok?
    ensures
      var b := Baseline(hash, p, e, frames, t).value;
      b in frames && exists v, r ::
        v in e.views && r in v.sourceFrames && r.cutoffAt == p.cutoffAt && r.frameHash == hash(FrameBody(b))
  {
    var b := Baseline(hash, p, e, frames, t).value;
    ViewsOfIn(e.views, t);
    var view := ViewsOf(e.views, t)[0];
    var refs := SpotRefs(view.sourceFrames, p.cutoffAt);
    assert view in ViewsOf(e.views, t);
    assert Grounded(hash, refs, frames, b);
    var r :| r in refs && hash(FrameBody(b)) == r.frameHash;
    assert r in view.sourceFrames && SpotAtCutoff(r, p.cutoffAt);
  }

  /** On an experience built from constructed frames the baseline the resolvers choose is one of its sources,
      ends at the cutoff and was known by it: the check they leave out cannot fail there. */
  lemma BaselineWasKnown(hash: Hash, p: QuestionPrediction, e: Experience, frames: seq<Frame>, t: Timescale, sources: seq<Frame>)
    requires BuiltFrom(hash, e, sources) && Apart(hash, FrameBodies(sources + frames))
    requires forall f :: f in frames ==> ValidFrame(f)
    requires Baseline(hash, p, e, frames, t).Ok?
    ensures
      var b := Baseline(hash, p, e, frames, t).value;
      b in sources && b.knownAt <= b.cutoffAt == p.cutoffAt
  {
    var b := Baseline(hash, p, e, frames, t).value;
    BaselineIsGrounded(hash, p, e, frames, t);
    var v, r :| v in e.views && r in v.sourceFrames && r.cutoffAt == p.cutoffAt && r.frameHash == hash(FrameBody(b));
    var f :| f in sources && r == FrameRef(hash, f);
    assert f in sources + frames && b in sources + frames;
    assert FrameBody(f) == FrameBody(b);
  }

  /** No refusal before the outcome is constructed is a refusal of the outcome contract. */
  lemma {:induction false} FramesRefuseElsewhere(hash: Hash, r: SourceRef, frames: seq<Frame>, instrumentId: string)
    ensures CandidatesFor(hash, r, frames, instrumentId) != Err(OutcomeContract)
  {
    if frames != [] {
      FramesRefuseElsewhere(hash, r, frames[..|frames| - 1], instrumentId);
    }
  }

  lemma {:induction false} CandidatesRefuseElsewhere(hash: Hash, refs: seq<SourceRef>, frames: seq<Frame>, instrumentId: string)
    ensures Candidates(hash, refs, frames, instrumentId) != Err(OutcomeContract)
  {
    if refs != [] {
      var n := |refs| - 1;
      CandidatesRefuseElsewhere(hash, refs[..n], frames, instrumentId);
      FramesRefuseElsewhere(hash, refs[n], frames, instrumentId);
    }
  }

  lemma BaselineRefusesElsewhere(hash: Hash, p: QuestionPrediction, e: Experience, frames: seq<Frame>, t: Timescale)
    ensures Baseline(hash, p, e, frames, t) != Err(OutcomeContract)
  {
    var views := ViewsOf(e.views, t);
    if |views| == 1 {
      var refs := SpotRefs(views[0].sourceFrames, p.cutoffAt);
      if OneInstrument(refs) {
        CandidatesRefuseElsewhere(hash, refs, frames, refs[0].instrumentId);
      }
    }
  }

  // ------------------------------------------------------------------ outcomes and their contract

  datatype Role = BASELINE | FORWARD

  datatype EvidenceRef = EvidenceRef(artifactId: string, contentHash: string, knownAt: int, role: Role, subjectId: string)

  /** The volatility answer is stated by its square, the variance of the returns. */
  datatype Answer = Direction(up: bool) | Magnitude(bps: real) | Variance(bpsSquared: real) | MaximumAdverse(bps: real)

  datatype QuestionOutcome = QuestionOutcome(
    predictionId: string, subjectId: string, cutoffAt: int, resolvesAt: int, maxLag: int, decidedAt: int,
    answer: Option<Answer>, evidence: seq<EvidenceRef>)

  predicate DistinctArtifacts(refs: seq<EvidenceRef>) {
    forall i, j :: 0 <= i < j < |refs| ==> refs[i].artifactId != refs[j].artifactId
  }

  predicate Causal(r: EvidenceRef, o: QuestionOutcome) {
    && r.artifactId != "" && r.knownAt >= 0 && r.subjectId != ""
    && (r.role.BASELINE? ==> r.knownAt <= o.cutoffAt)
    && (r.role.FORWARD? ==> o.cutoffAt < r.knownAt <= o.resolvesAt + o.maxLag)
  }

  /** What the constructor of a question-bound outcome checks. */
  predicate ValidOutcome(o: QuestionOutcome) {
    && o.cutoffAt >= 0 && o.resolvesAt > o.cutoffAt && o.maxLag >= 0 && o.decidedAt >= 0
    && DistinctArtifacts(o.evidence)
    && (forall i :: 0 <= i < |o.evidence| ==> Causal(o.evidence[i], o))
    && (o.answer.Some? ==>
          && (exists i :: 0 <= i < |o.evidence| && o.evidence[i].role.FORWARD?)
          && (exists i :: 0 <= i < |o.evidence| && o.evidence[i].subjectId == o.subjectId)
          && (forall i :: 0 <= i < |o.evidence| ==> o.evidence[i].knownAt <= o.decidedAt))
    && (o.answer.None? ==> o.evidence == [] && o.decidedAt > o.resolvesAt + o.maxLag)
  }

  function Constructed(o: QuestionOutcome): Result<QuestionOutcome, Refusal> {
    if ValidOutcome(o) then Ok(o) else Err(OutcomeContract)
  }

  function RefOf(hash: Hash, f: Frame, role: Role, subjectId: string): EvidenceRef {
    EvidenceRef(f.frameId, hash(FrameBody(f)), f.knownAt, role, subjectId)
  }

  function Refs(hash: Hash, baseline: Frame, path: seq<Frame>, subjectId: string): seq<EvidenceRef> {
    [RefOf(hash, baseline, BASELINE, subjectId)]
    + seq(|path|, i requires 0 <= i < |path| => RefOf(hash, path[i], FORWARD, subjectId))
  }

  function ResolvedOutcome(hash: Hash, p: QuestionPrediction, baseline: Frame, path: seq<Frame>, decidedAt: int, a: Answer)
    : QuestionOutcome
  {
    QuestionOutcome(p.predictionId, p.subjectId, p.cutoffAt, p.resolvesAt, p.maxLag, decidedAt, Some(a),
                    Refs(hash, baseline, path, p.subjectId))
  }

  function UnresolvedOutcome(p: QuestionPrediction): QuestionOutcome {
    QuestionOutcome(p.predictionId, p.subjectId, p.cutoffAt, p.resolvesAt, p.maxLag,
                    p.resolvesAt + p.maxLag + 1, None, [])
  }

  /** Forward frames in the window, each known later than the one before. */
  ghost predicate ForwardPath(p: QuestionPrediction, path: seq<Frame>) {
    && path != []
    && (forall i :: 0 <= i < |path| ==> p.cutoffAt < path[i].knownAt <= p.resolvesAt + p.maxLag)
    && (forall i, j :: 0 <= i < j < |path| ==> path[i].knownAt < path[j].knownAt)
  }

  /** Each reference on its own, when the baseline was known by the cutoff. */
  lemma RefsAreCausal(hash: Hash, p: QuestionPrediction, baseline: Frame, path: seq<Frame>, decidedAt: int, a: Answer)
    requires ValidQuestion(p) && ForwardPath(p, path) && baseline.knownAt <= p.cutoffAt
    requires ValidFrame(baseline) && (forall i :: 0 <= i < |path| ==> ValidFrame(path[i]))
    ensures
      var o := ResolvedOutcome(hash, p, baseline, path, decidedAt, a);
      forall i :: 0 <= i < |o.evidence| ==> Causal(o.evidence[i], o)
  {
    var o := ResolvedOutcome(hash, p, baseline, path, decidedAt, a);
    forall i | 0 <= i < |o.evidence| ensures Causal(o.evidence[i], o) {
      if i > 0 {
        assert o.evidence[i] == RefOf(hash, path[i - 1], FORWARD, p.subjectId);
        assert ValidFrame(path[i - 1]);
      }
    }
  }

  ghost predicate DistinctFrames(path: seq<Frame>) {
    forall i, j :: 0 <= i < j < |path| ==> path[i].frameId != path[j].frameId
  }

  /** The baseline was known by the cutoff and its id is not that of a forward frame. */
  ghost predicate Fits(p: QuestionPrediction, baseline: Frame, path: seq<Frame>) {
    && baseline.knownAt <= p.cutoffAt
    && forall i :: 0 <= i < |path| ==> path[i].frameId != baseline.frameId
  }

  lemma RefsAreDistinct(hash: Hash, baseline: Frame, path: seq<Frame>, subjectId: string)
    requires DistinctFrames(path)
    ensures DistinctArtifacts(Refs(hash, baseline, path, subjectId))
      <==> forall i :: 0 <= i < |path| ==> path[i].frameId != baseline.frameId
  {
    var refs := Refs(hash, baseline, path, subjectId);
    assert forall i :: 0 <= i < |path| ==> refs[i + 1].artifactId == path[i].frameId;
    assert refs[0].artifactId == baseline.frameId;
    if DistinctArtifacts(refs) {
      forall i | 0 <= i < |path| ensures path[i].frameId != baseline.frameId {
        assert refs[0].artifactId != refs[i + 1].artifactId;
      }
    } else {
      var i, j :| 0 <= i < j < |refs| && refs[i].artifactId == refs[j].artifactId;
      assert refs[j].artifactId == path[j - 1].frameId;
      assert i > 0 ==> refs[i].artifactId == path[i - 1].frameId;
    }
  }

  lemma ContractHolds(hash: Hash, p: QuestionPrediction, baseline: Frame, path: seq<Frame>, a: Answer)
    requires ValidQuestion(p) && ForwardPath(p, path) && Fits(p, baseline, path) && DistinctFrames(path)
    requires ValidFrame(baseline) && (forall i :: 0 <= i < |path| ==> ValidFrame(path[i]))
    ensures ValidOutcome(ResolvedOutcome(hash, p, baseline, path, path[|path| - 1].knownAt, a))
  {
    var decidedAt := path[|path| - 1].knownAt;
    RefsAreCausal(hash, p, baseline, path, decidedAt, a);
    RefsAreDistinct(hash, baseline, path, p.subjectId);
    RefsCoverAnswer(hash, p, baseline, path);
  }

  /** What a resolved answer asks of its references: one of each kind, and none known after the decision. */
  lemma RefsCoverAnswer(hash: Hash, p: QuestionPrediction, baseline: Frame, path: seq<Frame>)
    requires ForwardPath(p, path) && baseline.knownAt <= p.cutoffAt
    ensures
      var refs := Refs(hash, baseline, path, p.subjectId);
      && (exists i :: 0 <= i < |refs| && refs[i].role.FORWARD?)
      && (exists i :: 0 <= i < |refs| && refs[i].subjectId == p.subjectId)
      && (forall i :: 0 <= i < |refs| ==> refs[i].knownAt <= path[|path| - 1].knownAt)
  {
    var refs := Refs(hash, baseline, path, p.subjectId);
    assert refs[1] == RefOf(hash, path[0], FORWARD, p.subjectId);
    forall i | 0 <= i < |refs| ensures refs[i].knownAt <= path[|path| - 1].knownAt {
      if i > 0 {
        assert refs[i].knownAt == path[i - 1].knownAt;
      }
    }
  }

  /** The outcome contract takes the selected evidence exactly when the baseline was known by the cutoff and
      no forward frame has its id. */
  lemma ContractExactly(hash: Hash, p: QuestionPrediction, baseline: Frame, path: seq<Frame>, a: Answer)
    requires ValidQuestion(p) && ForwardPath(p, path) && DistinctFrames(path)
    requires ValidFrame(baseline) && (forall i :: 0 <= i < |path| ==> ValidFrame(path[i]))
    ensures ValidOutcome(ResolvedOutcome(hash, p, baseline, path, path[|path| - 1].knownAt, a)) <==> Fits(p, baseline, path)
  {
    if Fits(p, baseline, path) {
      ContractHolds(hash, p, baseline, path, a);
    } else {
      var o := ResolvedOutcome(hash, p, baseline, path, path[|path| - 1].knownAt, a);
      assert o.evidence[0] == RefOf(hash, baseline, BASELINE, p.subjectId);
      assert baseline.knownAt > p.cutoffAt ==> !Causal(o.evidence[0], o);
      RefsAreDistinct(hash, baseline, path, p.subjectId);
    }
  }

  lemma UnresolvedIsValid(p: QuestionPrediction)
    requires ValidQuestion(p)
    ensures ValidOutcome(UnresolvedOutcome(p))
  {
  }

  // ------------------------------------------------------------------ the midpoint resolver

  const MIDPOINT_POLICY := "FIRST_QUALIFIED_AGGREGATE_MIDPOINT_AT_OR_AFTER_TARGET_V1"
  const FIXED_GRID_POLICY := "QUALIFIED_FIXED_GRID_AGGREGATE_MIDPOINT_PATH_V1"

  function ForwardSlot(p: QuestionPrediction, baseline: Frame): Slot {
    Slot(baseline.instrument, p.resolvesAt, p.resolvesAt + p.maxLag, {})
  }

  function MidpointAnswer(q: Question, baseline: real, realized: real): Answer
    requires baseline > 0.0
  {
    if q.DIRECTION_10S? then Direction(realized > baseline) else Magnitude(ReturnBps(realized, baseline))
  }

  /** From the chosen baseline on. */
  function MidpointFrom(hash: Hash, p: QuestionPrediction, baseline: Frame, forward: seq<Frame>, now: int)
    : Result<QuestionOutcome, Refusal>
  {
    match TargetPrice(baseline)
    case None => Err(NoMidpoint)
    case Some(reference) =>
      match Earliest(hash, forward, ForwardSlot(p, baseline))
      case None => if now <= p.resolvesAt + p.maxLag then Err(StillOpen) else Constructed(UnresolvedOutcome(p))
      case Some(f) =>
        if now < f.knownAt then Err(NotKnowable)
        else match TargetPrice(f)
          case None => Err(NoMidpoint)
          case Some(realized) =>
            Constructed(ResolvedOutcome(hash, p, baseline, [f], f.knownAt,
                                        MidpointAnswer(p.question, reference.value, realized.value)))
  }

  function PolicyFault(p: QuestionPrediction, supported: bool, policy: string, journaledAt: int, now: int): Option<Refusal> {
    if !supported then Some(UnsupportedQuestion)
    else if p.resolverPolicy != policy then Some(PolicyDiffers)
    else if p.mode.PROSPECTIVE_SHADOW? && journaledAt >= p.resolvesAt then Some(LateForward)
    else if now < 0 then Some(NegativeTime)
    else None
  }

  function MidpointFault(p: QuestionPrediction, journaledAt: int, now: int): Option<Refusal> {
    PolicyFault(p, p.question.DIRECTION_10S? || p.question.MAGNITUDE_30S?, MIDPOINT_POLICY, journaledAt, now)
  }

  /** resolve_midpoint_question, from the journaled prediction on. */
  function ResolveMidpoint(hash: Hash, p: QuestionPrediction, journaledAt: int, e: Experience,
                           baselines: seq<Frame>, forward: seq<Frame>, now: int): Result<QuestionOutcome, Refusal>
  {
    var fault := MidpointFault(p, journaledAt, now);
    if fault.Some? then Err(fault.value)
    else if ExperienceFault(p, e).Some? then Err(ExperienceFault(p, e).value)
    else match Baseline(hash, p, e, baselines, MICRO)
      case Err(refusal) => Err(refusal)
      case Ok(baseline) => MidpointFrom(hash, p, baseline, forward, now)
  }

  lemma PolicyFaultLater(p: QuestionPrediction, supported: bool, policy: string, journaledAt: int, now: int, later: int)
    requires now <= later && PolicyFault(p, supported, policy, journaledAt, now).None?
    ensures PolicyFault(p, supported, policy, journaledAt, later).None?
  {
  }

  lemma MidpointStays(hash: Hash, p: QuestionPrediction, baseline: Frame, forward: seq<Frame>, now: int,
                      later: seq<Frame>, laterNow: int)
    requires Apart(hash, FrameBodies(forward)) && GrownAfter(forward, later, now) && now <= laterNow
    requires MidpointFrom(hash, p, baseline, forward, now).Ok?
    ensures MidpointFrom(hash, p, baseline, later, laterNow) == MidpointFrom(hash, p, baseline, forward, now)
  {
    SelectionIsStable(hash, forward, later, ForwardSlot(p, baseline), now);
  }

  /** Once a midpoint outcome is final, later evidence and later retries give the identical outcome. */
  lemma MidpointIsStable(hash: Hash, p: QuestionPrediction, journaledAt: int, e: Experience, baselines: seq<Frame>,
                         forward: seq<Frame>, now: int, later: seq<Frame>, laterNow: int)
    requires Apart(hash, FrameBodies(forward)) && GrownAfter(forward, later, now) && now <= laterNow
    requires ResolveMidpoint(hash, p, journaledAt, e, baselines, forward, now).Ok?
    ensures ResolveMidpoint(hash, p, journaledAt, e, baselines, later, laterNow)
         == ResolveMidpoint(hash, p, journaledAt, e, baselines, forward, now)
  {
    var baseline := Baseline(hash, p, e, baselines, MICRO).value;
    MidpointStays(hash, p, baseline, forward, now, later, laterNow);
  }

  /** The baseline the resolver chooses, if the call comes that far. */
  function ChosenBaseline(hash: Hash, p: QuestionPrediction, e: Experience, baselines: seq<Frame>, t: Timescale,
                          fault: Option<Refusal>): Option<Frame>
  {
    if fault.Some? || ExperienceFault(p, e).Some? then None
    else match Baseline(hash, p, e, baselines, t)
      case Err(_) => None
      case Ok(baseline) => if TargetPrice(baseline).Some? then Some(baseline) else None
  }

  /** The baseline and the forward frame that an outcome is constructed from. */
  function MidpointEvidence(hash: Hash, p: QuestionPrediction, journaledAt: int, e: Experience,
                            baselines: seq<Frame>, forward: seq<Frame>, now: int): (pair: Option<(Frame, Frame)>)
    ensures pair.Some? ==> Baseline(hash, p, e, baselines, MICRO) == Ok(pair.value.0) && pair.value.1 in forward
  {
    match ChosenBaseline(hash, p, e, baselines, MICRO, MidpointFault(p, journaledAt, now))
    case None => None
    case Some(baseline) =>
      match Earliest(hash, forward, ForwardSlot(p, baseline))
      case None => None
      case Some(f) => if f.knownAt <= now && TargetPrice(f).Some? then Some((baseline, f)) else None
  }

  lemma MidpointFromExactly(hash: Hash, p: QuestionPrediction, baseline: Frame, forward: seq<Frame>, now: int)
    requires ValidQuestion(p) && ValidFrame(baseline) && forall f :: f in forward ==> ValidFrame(f)
    ensures
      var f := Earliest(hash, forward, ForwardSlot(p, baseline));
      var inHand := TargetPrice(baseline).Some? && f.Some? && f.value.knownAt <= now && TargetPrice(f.value).Some?;
      && (MidpointFrom(hash, p, baseline, forward, now) == Err(OutcomeContract)
          <==> inHand && !Fits(p, baseline, [f.value]))
      && (inHand && Fits(p, baseline, [f.value]) ==> MidpointFrom(hash, p, baseline, forward, now).Ok?)
  {
    UnresolvedIsValid(p);
    var selected := Earliest(hash, forward, ForwardSlot(p, baseline));
    if TargetPrice(baseline).Some? && selected.Some? && TargetPrice(selected.value).Some? {
      var f := selected.value;
      var a := MidpointAnswer(p.question, TargetPrice(baseline).value.value, TargetPrice(f).value.value);
      ContractExactly(hash, p, baseline, [f], a);
    }
  }

  /** The outcome contract refuses a midpoint outcome exactly when all evidence is in hand and the chosen
      baseline became known after the cutoff or shares the forward frame's id. With evidence in hand the
      call resolves otherwise. */
  lemma MidpointResolvesExactly(hash: Hash, p: QuestionPrediction, journaledAt: int, e: Experience,
                                baselines: seq<Frame>, forward: seq<Frame>, now: int)
    requires ValidQuestion(p) && (forall f :: f in baselines ==> ValidFrame(f)) && (forall f :: f in forward ==> ValidFrame(f))
    ensures
      var evidence := MidpointEvidence(hash, p, journaledAt, e, baselines, forward, now);
      var outcome := ResolveMidpoint(hash, p, journaledAt, e, baselines, forward, now);
      && (outcome == Err(OutcomeContract) <==> evidence.Some? && !Fits(p, evidence.value.0, [evidence.value.1]))
      && (evidence.Some? && Fits(p, evidence.value.0, [evidence.value.1]) ==> outcome.Ok?)
  {
    BaselineRefusesElsewhere(hash, p, e, baselines, MICRO);
    if Baseline(hash, p, e, baselines, MICRO).Ok? {
      BaselineIsGrounded(hash, p, e, baselines, MICRO);
      MidpointFromExactly(hash, p, Baseline(hash, p, e, baselines, MICRO).value, forward, now);
    }
  }

  /** On a built experience, and when a frame id names one frame, the outcome contract never refuses. */
  lemma BuiltMidpointIsAccepted(hash: Hash, p: QuestionPrediction, journaledAt: int, e: Experience, sources: seq<Frame>,
                                baselines: seq<Frame>, forward: seq<Frame>, now: int)
    requires ValidQuestion(p) && (forall f :: f in baselines ==> ValidFrame(f)) && (forall f :: f in forward ==> ValidFrame(f))
    requires BuiltFrom(hash, e, sources) && Apart(hash, FrameBodies(sources + baselines)) && IdsDetermine(baselines + forward)
    ensures ResolveMidpoint(hash, p, journaledAt, e, baselines, forward, now) != Err(OutcomeContract)
    ensures MidpointEvidence(hash, p, journaledAt, e, baselines, forward, now).Some? ==>
      ResolveMidpoint(hash, p, journaledAt, e, baselines, forward, now).Ok?
  {
    MidpointResolvesExactly(hash, p, journaledAt, e, baselines, forward, now);
    var evidence := MidpointEvidence(hash, p, journaledAt, e, baselines, forward, now);
    if evidence.Some? {
      var (baseline, f) := evidence.value;
      BaselineIsGrounded(hash, p, e, baselines, MICRO);
      BaselineWasKnown(hash, p, e, baselines, MICRO, sources);
      assert baseline in baselines + forward && f in baselines + forward;
      assert Fits(p, baseline, [f]);
    }
  }

  // ------------------------------------------------------------------ a foreign reference

  const LATE_FRAME := Frame("LATE", Instrument("BTC-USD", "SPOT", ""), "INSTRUMENT_STATE", QUALIFIED, 15, 15,
                            Some(Aggregate(true, Some(1.0), Some(1.0), None)))
  const NEXT_FRAME := LATE_FRAME.(frameId := "NEXT", knownAt := 20, cutoffAt := 20)
  const LATE_QUESTION := QuestionPrediction("P", DIRECTION_10S, HISTORICAL_REPLAY, "BTC", MIDPOINT_POLICY, 10, 10, 20, 5,
                                            [ArtifactRef("MARKET_EXPERIENCE", "E", "H")])

  /** A reference that claims a cutoff of 10 for a frame known and cut off at 15. */
  function ForeignExperience(hash: Hash): Experience {
    Experience("E", "BTC", 10, QUALIFIED,
               [View(MICRO, [FrameRef(hash, LATE_FRAME).(cutoffAt := 10, knownAt := 10)])], "H")
  }

  lemma OneReference(hash: Hash, r: SourceRef, f: Frame)
    requires r.frameId == f.frameId && BaselineFault(hash, r, f, r.instrumentId).None?
    ensures Candidates(hash, [r], [f], r.instrumentId) == Ok([f])
  {
    assert [r][..0] == [] && [f][..0] == [];
    assert CandidatesFor(hash, r, [f][..0], r.instrumentId) == Ok([]);
    assert [] + [f] == [f];
    assert CandidatesFor(hash, r, [f], r.instrumentId) == Ok([f]);
    assert Candidates(hash, [r][..0], [f], r.instrumentId) == Ok([]);
  }

  lemma ForeignBaseline(hash: Hash)
    ensures Baseline(hash, LATE_QUESTION, ForeignExperience(hash), [LATE_FRAME], MICRO) == Ok(LATE_FRAME)
  {
    var view := ForeignExperience(hash).views[0];
    var ref := view.sourceFrames[0];
    assert [view][..0] == [] && [ref][..0] == [];
    assert ViewsOf([view], MICRO) == [view];
    assert SpotRefs([ref], 10) == [ref];
    OneReference(hash, ref, LATE_FRAME);
  }

  /** With a reference that does not repeat its frame's cutoff, a baseline known after the cutoff is chosen
      and only the outcome contract stops it. */
  lemma ForeignReferenceIsRefused(hash: Hash)
    ensures ValidQuestion(LATE_QUESTION) && ValidFrame(LATE_FRAME) && ValidFrame(NEXT_FRAME)
    ensures ResolveMidpoint(hash, LATE_QUESTION, 0, ForeignExperience(hash), [LATE_FRAME], [NEXT_FRAME], 20)
         == Err(OutcomeContract)
  {
    var e := ForeignExperience(hash);
    ForeignBaseline(hash);
    assert LATE_QUESTION.artifacts[..0] == [];
    assert BoundRefs(LATE_QUESTION.artifacts, e) == LATE_QUESTION.artifacts;
    EarliestIsLeast(hash, [NEXT_FRAME], ForwardSlot(LATE_QUESTION, LATE_FRAME));
    assert NEXT_FRAME in [NEXT_FRAME] && Eligible(NEXT_FRAME, ForwardSlot(LATE_QUESTION, LATE_FRAME));
    MidpointResolvesExactly(hash, LATE_QUESTION, 0, e, [LATE_FRAME], [NEXT_FRAME], 20);
  }
}

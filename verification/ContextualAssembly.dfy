/** Z9, assembly/contextual.py: a bounded overlay of context relevance on an assembled prediction, the
    receipt it leaves and the contract of that receipt. */
module ContextualAssembly {
  import opened Prelude
  import opened Sorting
  import opened Evidence
  import opened Weighting
  import opened Assembly
  import opened Lineage
  import opened AssemblyAgreement
  import opened ReceiptContract
  import opened RoundedClosure
  import opened RoundedForecast

  /** What a market context says of one instrument. */
  datatype Member = Member(frameId: string, frameHash: string, reliability: real, freshness: real)

  datatype Context = Context(
    contextId: string, status: FrameStatus, knownAt: int, cutoffAt: int,
    quality: map<string, FeatureQuality>, regimes: map<string, string>, members: map<string, Member>)

  /** ModelContextProfile: which facts of a context are relevant to one model. */
  datatype Relevance = Relevance(
    modelRef: string, dependencies: seq<string>, preferred: Regimes, adverse: Regimes, group: string)

  datatype Overlay = Overlay(
    modelRef: string, component: Prediction, profile: Relevance, baseWeight: real,
    feature: real, regime: real, reliability: real, freshness: real, diversity: real, multiplier: real)

  datatype ContextContributor = ContextContributor(overlay: Overlay, componentHash: string, profileHash: string, finalWeight: real)

  datatype ContextualReceipt = ContextualReceipt(
    receiptId: string, assemblyAt: int, baseReceiptId: string, baseReceiptHash: string,
    basePredictionId: string, basePredictionHash: string, contextId: string, contextHash: string,
    profileSetHash: string, finalId: string, finalHash: string, contributors: seq<ContextContributor>)

  /** What canonical_hash is applied to here beyond the artifacts of Z8. */
  datatype ContextBody =
    | ContextContent(context: Context)
    | RelevanceContent(profile: Relevance)
    | ProfileSet(named: seq<(string, string)>)
    | BaseReceiptContent(receipt: Receipt)
    | FinalMaterial(baseHash: string, contextHash: string, setHash: string, assemblyAt: int, refs: seq<string>, weights: seq<real>)
    | OverlayMaterial(baseReceiptHash: string, contextHash: string, setHash: string, finalHash: string,
                      contributors: seq<ContextContributor>)

  type ContextHash = ContextBody -> string

  datatype ContextFault =
    | BaseDiffers | BaseFrameDiffers | PrecedesBase | ComponentNotSingle | PopulationDiffers | ComponentHashDiffers
    | ContextUnqualified | ContextInFuture | TargetMissing | TargetDiffers | ProfilesDiffer | TotalNotPositive
    | NotCreated(fault: Fault)

  // ------------------------------------------------------------------ dictionaries

  /** A dictionary filled in a loop: the last item with a key stays. */
  function Dict<T>(s: seq<T>, key: T -> string): map<string, T> {
    if s == [] then map[] else Dict(s[..|s| - 1], key)[key(s[|s| - 1]) := s[|s| - 1]]
  }

  lemma {:induction false} DictHolds<T>(s: seq<T>, key: T -> string)
    ensures forall k :: k in Dict(s, key) ==> Dict(s, key)[k] in s && key(Dict(s, key)[k]) == k
    ensures forall i :: 0 <= i < |s| ==> key(s[i]) in Dict(s, key)
  {
    if s != [] {
      var n := |s| - 1;
      DictHolds(s[..n], key);
      assert forall i :: 0 <= i < n ==> s[i] == s[..n][i];
    }
  }

  lemma {:induction false} DictAt<T>(s: seq<T>, key: T -> string, i: nat)
    requires i < |s| && forall a, b :: 0 <= a < b < |s| ==> key(s[a]) != key(s[b])
    ensures key(s[i]) in Dict(s, key) && Dict(s, key)[key(s[i])] == s[i]
  {
    var n := |s| - 1;
    if i < n {
      assert forall a :: 0 <= a < n ==> s[a] == s[..n][a];
      DictHolds(s[..n], key);
      DictAt(s[..n], key, i);
    }
  }

  function RefOf(p: Prediction): string { if p.modelRefs == [] then "" else p.modelRefs[0] }

  function Refs(components: seq<Prediction>): seq<string> {
    seq(|components|, i requires 0 <= i < |components| => RefOf(components[i]))
  }

  function ByComponent(components: seq<Prediction>): map<string, Prediction> { Dict(components, RefOf) }

  function ContributorRef(c: Contributor): string { c.modelRef }

  function ByContributor(contributors: seq<Contributor>): map<string, Contributor> { Dict(contributors, ContributorRef) }

  function ProfileRef(p: Relevance): string { p.modelRef }

  function ByProfile(profiles: seq<Relevance>): map<string, Relevance> { Dict(profiles, ProfileRef) }

  function Members(s: seq<string>): set<string> { set x | x in s }

  predicate NoRepeats(s: seq<string>) { forall i, j :: 0 <= i < j < |s| ==> s[i] != s[j] }

  /** `receipt_refs == sorted(keys)`: in order, without repetition, and with exactly the keys. */
  predicate IsSortedKeys(refs: seq<string>, keys: set<string>) {
    (forall i, j :: 0 <= i < j < |refs| ==> TextLt(refs[i], refs[j])) && Members(refs) == keys
  }

  // ------------------------------------------------------------------ the checks

  /** _validate_base, on the components in their order. */
  function BaseFault(hash: Hash, frame: Frame, ordered: seq<Prediction>, base: Prediction, receipt: Receipt, assemblyAt: int)
    : Option<ContextFault>
  {
    var byRef := ByComponent(ordered);
    if receipt.assembledId != base.predictionId || receipt.assembledHash != hash(PredictionBody(base)) then Some(BaseDiffers)
    else if receipt.frameId != frame.frameId || receipt.frameHash != hash(FrameBody(frame)) then Some(BaseFrameDiffers)
    else if receipt.assemblyAt > assemblyAt then Some(PrecedesBase)
    else if exists i :: 0 <= i < |ordered| && |ordered[i].modelRefs| != 1 then Some(ComponentNotSingle)
    else if !IsSortedKeys(CitedRefs(receipt.contributors), byRef.Keys) then Some(PopulationDiffers)
    else if exists i :: 0 <= i < |receipt.contributors| && receipt.contributors[i].modelRef in byRef
                        && receipt.contributors[i].componentHash != hash(PredictionBody(byRef[receipt.contributors[i].modelRef]))
    then Some(ComponentHashDiffers)
    else None
  }

  /** _context_target_member. */
  function TargetFault(hash: Hash, frame: Frame, context: Context, assemblyAt: int): Option<ContextFault> {
    var id := frame.instrument.canonicalId;
    if context.knownAt > assemblyAt || context.cutoffAt > assemblyAt then Some(ContextInFuture)
    else if id !in context.members then Some(TargetMissing)
    else if context.members[id].frameId != frame.frameId || context.members[id].frameHash != hash(FrameBody(frame))
    then Some(TargetDiffers)
    else None
  }

  /** Exactly one profile for each component model. */
  predicate ProfilesFit(refs: seq<string>, profiles: seq<Relevance>) {
    && NoRepeats(refs) && ByProfile(profiles).Keys == Members(refs) && |ByProfile(profiles)| == |profiles|
  }

  function Checked(hash: Hash, frame: Frame, ordered: seq<Prediction>, base: Prediction, receipt: Receipt, context: Context,
                   profiles: seq<Relevance>, assemblyAt: int): Option<ContextFault>
  {
    var before := BaseFault(hash, frame, ordered, base, receipt, assemblyAt);
    if before.Some? then before
    else if base.mode.PROSPECTIVE_SHADOW? && !context.status.QUALIFIED? then Some(ContextUnqualified)
    else
      var target := TargetFault(hash, frame, context, assemblyAt);
      if target.Some? then target
      else if !ProfilesFit(Refs(ordered), profiles) then Some(ProfilesDiffer)
      else None
  }

  lemma BaseFaultMeans(hash: Hash, frame: Frame, ordered: seq<Prediction>, base: Prediction, receipt: Receipt, assemblyAt: int)
    requires BaseFault(hash, frame, ordered, base, receipt, assemblyAt).None?
    ensures receipt.assemblyAt <= assemblyAt && IsSortedKeys(CitedRefs(receipt.contributors), ByComponent(ordered).Keys)
  {
  }

  lemma CheckedMeans(hash: Hash, frame: Frame, ordered: seq<Prediction>, base: Prediction, receipt: Receipt, context: Context,
                     profiles: seq<Relevance>, assemblyAt: int)
    requires Checked(hash, frame, ordered, base, receipt, context, profiles, assemblyAt).None?
    ensures frame.instrument.canonicalId in context.members && ProfilesFit(Refs(ordered), profiles)
    ensures receipt.assemblyAt <= assemblyAt && IsSortedKeys(CitedRefs(receipt.contributors), ByComponent(ordered).Keys)
  {
    BaseFaultMeans(hash, frame, ordered, base, receipt, assemblyAt);
  }

  // ------------------------------------------------------------------ the overlay

  function GroupCount(profiles: seq<Relevance>, group: string): nat {
    if profiles == [] then 0
    else
      var n := |profiles| - 1;
      GroupCount(profiles[..n], group) + (if profiles[n].group == group then 1 else 0)
  }

  /** What one component's profile, the context and the target's member make of its base weight. */
  function OverlayOf(component: Prediction, profile: Relevance, baseWeight: real, context: Context, member: Member,
                     shared: bool): (o: Overlay)
    ensures MULTIPLIER_MIN <= o.multiplier <= MULTIPLIER_MAX
  {
    var feature := FeatureFactor(profile.dependencies, context.quality);
    var regime := RegimeFactor(profile.preferred, profile.adverse, context.regimes);
    Overlay(RefOf(component), component, profile, baseWeight, feature, regime,
            ReliabilityFactor(member.reliability), FreshnessFactor(member.freshness), DiversityFactor(shared),
            Multiplier(feature, regime, member.reliability, member.freshness, shared))
  }

  /** A reference has its component, its contributor and its profile. */
  predicate KnownRef(ref: string, ordered: seq<Prediction>, receipt: Receipt, profiles: seq<Relevance>) {
    ref in ByComponent(ordered) && ref in ByContributor(receipt.contributors) && ref in ByProfile(profiles)
  }

  predicate Known(refs: seq<string>, ordered: seq<Prediction>, receipt: Receipt, profiles: seq<Relevance>) {
    forall i :: 0 <= i < |refs| ==> KnownRef(refs[i], ordered, receipt, profiles)
  }

  function OverlayFor(ref: string, ordered: seq<Prediction>, receipt: Receipt, context: Context, member: Member,
                      profiles: seq<Relevance>): (o: Overlay)
    requires KnownRef(ref, ordered, receipt, profiles)
    ensures MULTIPLIER_MIN <= o.multiplier <= MULTIPLIER_MAX && o.modelRef == ref
  {
    DictHolds(ordered, RefOf);
    var profile := ByProfile(profiles)[ref];
    OverlayOf(ByComponent(ordered)[ref], profile, ByContributor(receipt.contributors)[ref].weight, context, member,
              GroupCount(profiles, profile.group) > 1)
  }

  function Overlays(refs: seq<string>, ordered: seq<Prediction>, receipt: Receipt, context: Context, member: Member,
                    profiles: seq<Relevance>): (s: seq<Overlay>)
    requires Known(refs, ordered, receipt, profiles)
    ensures |s| == |refs|
    ensures forall i :: 0 <= i < |s| ==> s[i].modelRef == refs[i] && MULTIPLIER_MIN <= s[i].multiplier <= MULTIPLIER_MAX
  {
    seq(|refs|, i requires 0 <= i < |refs| => OverlayFor(refs[i], ordered, receipt, context, member, profiles))
  }

  function BaseOf(items: seq<Overlay>): seq<real> { seq(|items|, i requires 0 <= i < |items| => items[i].baseWeight) }

  function MultipliersOf(items: seq<Overlay>): seq<real> { seq(|items|, i requires 0 <= i < |items| => items[i].multiplier) }

  function MovesOf(items: seq<Overlay>): seq<real> {
    seq(|items|, i requires 0 <= i < |items| => items[i].component.expectedMove)
  }

  function ChancesOf(items: seq<Overlay>): seq<real> {
    seq(|items|, i requires 0 <= i < |items| => items[i].component.probabilityPositive)
  }

  function RefsOf(items: seq<Overlay>): seq<string> { seq(|items|, i requires 0 <= i < |items| => items[i].modelRef) }

  function IntervalsOf(items: seq<Overlay>): seq<Option<Interval>> {
    seq(|items|, i requires 0 <= i < |items| => items[i].component.interval)
  }

  // ------------------------------------------------------------------ the final prediction and its receipt

  function SetHash(chash: ContextHash, profiles: seq<Relevance>): string {
    var ordered := Sorted(profiles, (a: Relevance, b: Relevance) => TextLe(a.modelRef, b.modelRef));
    chash(ProfileSet(seq(|ordered|, i requires 0 <= i < |ordered| => (ordered[i].modelRef, chash(RelevanceContent(ordered[i]))))))
  }

  function FinalId(hash: Hash, chash: ContextHash, base: Prediction, context: Context, profiles: seq<Relevance>,
                   assemblyAt: int, refs: seq<string>, weights: seq<real>): (id: string)
    ensures id != ""
  {
    var material := FinalMaterial(hash(PredictionBody(base)), chash(ContextContent(context)), SetHash(chash, profiles),
                                  assemblyAt, refs, weights);
    "CTX-PRED-" + Short(chash(material))
  }

  function Created(hash: Hash, frame: Frame, base: Prediction, assemblyAt: int, items: seq<Overlay>, weights: seq<real>)
    : Result<Prediction, Fault>
    requires |items| == |weights|
  {
    CreatePrediction(hash, frame, base.mode, base.predictionAt, assemblyAt, base.horizon,
                     Forecast(MovesOf(items), weights), Forecast(ChancesOf(items), weights), Widest(IntervalsOf(items)), RefsOf(items))
  }

  /** The one clause of the prediction contract that an overlay can break: its constructor refuses. */
  predicate Late(p: Prediction) { p.mode.PROSPECTIVE_SHADOW? && p.createdAt > p.resolvesAt }

  function FinalPrediction(hash: Hash, chash: ContextHash, frame: Frame, base: Prediction, context: Context,
                           profiles: seq<Relevance>, assemblyAt: int, items: seq<Overlay>, weights: seq<real>)
    : Result<Prediction, ContextFault>
    requires |items| == |weights|
  {
    match Created(hash, frame, base, assemblyAt, items, weights)
    case Err(f) => Err(NotCreated(f))
    case Ok(p) =>
      if Late(p) then Err(NotCreated(AfterResolution))
      else Ok(p.(predictionId := FinalId(hash, chash, base, context, profiles, assemblyAt, RefsOf(items), weights)))
  }

  function ContributorsOf(hash: Hash, chash: ContextHash, items: seq<Overlay>, weights: seq<real>): seq<ContextContributor>
    requires |items| == |weights|
  {
    seq(|items|, i requires 0 <= i < |items| =>
      ContextContributor(items[i], hash(PredictionBody(items[i].component)), chash(RelevanceContent(items[i].profile)), weights[i]))
  }

  function ReceiptFor(hash: Hash, chash: ContextHash, base: Prediction, receipt: Receipt, context: Context,
                      profiles: seq<Relevance>, assemblyAt: int, final: Prediction, contributors: seq<ContextContributor>)
    : ContextualReceipt
  {
    var material := OverlayMaterial(chash(BaseReceiptContent(receipt)), chash(ContextContent(context)), SetHash(chash, profiles),
                                    hash(PredictionBody(final)), contributors);
    ContextualReceipt("CTX-ASM-" + Short(chash(material)), assemblyAt, receipt.receiptId, chash(BaseReceiptContent(receipt)),
                      base.predictionId, hash(PredictionBody(base)), context.contextId, chash(ContextContent(context)),
                      SetHash(chash, profiles), final.predictionId, hash(PredictionBody(final)), contributors)
  }

  /** From the overlays on. */
  function Weighted(hash: Hash, chash: ContextHash, frame: Frame, base: Prediction, receipt: Receipt, context: Context,
                    profiles: seq<Relevance>, assemblyAt: int, items: seq<Overlay>)
    : Result<(Prediction, ContextualReceipt), ContextFault>
  {
    var u := Unnormalized(BaseOf(items), MultipliersOf(items));
    if u == [] || RoundedSum(u) <= 0.0 then Err(TotalNotPositive)
    else
      var weights := RoundedWeights(u);
      match FinalPrediction(hash, chash, frame, base, context, profiles, assemblyAt, items, weights)
      case Err(f) => Err(f)
      case Ok(final) =>
        Ok((final, ReceiptFor(hash, chash, base, receipt, context, profiles, assemblyAt, final,
                              ContributorsOf(hash, chash, items, weights))))
  }

  lemma FitMeansKnown(ref: string, ordered: seq<Prediction>, receipt: Receipt, profiles: seq<Relevance>)
    requires ref in Refs(ordered) && ProfilesFit(Refs(ordered), profiles)
    requires IsSortedKeys(CitedRefs(receipt.contributors), ByComponent(ordered).Keys)
    ensures KnownRef(ref, ordered, receipt, profiles)
  {
    DictHolds(ordered, RefOf);
    DictHolds(receipt.contributors, ContributorRef);
    var k :| 0 <= k < |ordered| && Refs(ordered)[k] == ref;
    assert RefOf(ordered[k]) in ByComponent(ordered);
    assert ref in Members(CitedRefs(receipt.contributors));
    var c :| 0 <= c < |receipt.contributors| && CitedRefs(receipt.contributors)[c] == ref;
    assert ContributorRef(receipt.contributors[c]) in ByContributor(receipt.contributors);
    assert ref in Members(Refs(ordered));
  }

  lemma CheckedMeansKnown(hash: Hash, frame: Frame, ordered: seq<Prediction>, base: Prediction, receipt: Receipt, context: Context,
                          profiles: seq<Relevance>, assemblyAt: int)
    requires Checked(hash, frame, ordered, base, receipt, context, profiles, assemblyAt).None?
    ensures frame.instrument.canonicalId in context.members && receipt.assemblyAt <= assemblyAt
    ensures Known(Sorted(Refs(ordered), TextLe), ordered, receipt, profiles)
  {
    var refs := Sorted(Refs(ordered), TextLe);
    CheckedMeans(hash, frame, ordered, base, receipt, context, profiles, assemblyAt);
    SortedMembers(Refs(ordered), TextLe);
    forall i | 0 <= i < |refs| ensures KnownRef(refs[i], ordered, receipt, profiles) {
      assert refs[i] in refs;
      FitMeansKnown(refs[i], ordered, receipt, profiles);
    }
  }

  /** contextualize_prediction. */
  function Contextualize(hash: Hash, chash: ContextHash, frame: Frame, components: seq<Prediction>, base: Prediction,
                         receipt: Receipt, context: Context, profiles: seq<Relevance>, assemblyAt: int)
    : Result<(Prediction, ContextualReceipt), ContextFault>
  {
    var ordered := Sorted(components, ComponentLe);
    match Checked(hash, frame, ordered, base, receipt, context, profiles, assemblyAt)
    case Some(f) => Err(f)
    case None =>
      CheckedMeansKnown(hash, frame, ordered, base, receipt, context, profiles, assemblyAt);
      var member := context.members[frame.instrument.canonicalId];
      Weighted(hash, chash, frame, base, receipt, context, profiles, assemblyAt,
               Overlays(Sorted(Refs(ordered), TextLe), ordered, receipt, context, member, profiles))
  }

  // ------------------------------------------------------------------ the loops of the source

  method CountGroups(profiles: seq<Relevance>) returns (counts: map<string, nat>)
    ensures forall i :: 0 <= i < |profiles| ==> profiles[i].group in counts
    ensures forall g :: g in counts ==> counts[g] == GroupCount(profiles, g)
  {
    counts := map[];
    var i := 0;
    while i < |profiles|
      invariant 0 <= i <= |profiles|
      invariant forall k :: 0 <= k < i ==> profiles[k].group in counts
      invariant forall g :: (if g in counts then counts[g] else 0) == GroupCount(profiles[..i], g)
    {
      assert profiles[..i + 1][..i] == profiles[..i];
      var g := profiles[i].group;
      counts := counts[g := (if g in counts then counts[g] else 0) + 1];
      i := i + 1;
    }
    assert profiles[..i] == profiles;
  }

  method BuildOverlay(ref: string, counts: map<string, nat>, ordered: seq<Prediction>, receipt: Receipt, context: Context,
                      member: Member, profiles: seq<Relevance>) returns (item: Overlay)
    requires KnownRef(ref, ordered, receipt, profiles)
    requires forall i :: 0 <= i < |profiles| ==> profiles[i].group in counts
    requires forall g :: g in counts ==> counts[g] == GroupCount(profiles, g)
    ensures item == OverlayFor(ref, ordered, receipt, context, member, profiles)
  {
    DictHolds(profiles, ProfileRef);
    var profile := ByProfile(profiles)[ref];
    assert profile in profiles;
    item := OverlayOf(ByComponent(ordered)[ref], profile, ByContributor(receipt.contributors)[ref].weight, context, member,
                      counts[profile.group] > 1);
  }

  /** The loop over the sorted references. */
  method BuildOverlays(refs: seq<string>, ordered: seq<Prediction>, receipt: Receipt, context: Context, member: Member,
                       profiles: seq<Relevance>) returns (items: seq<Overlay>)
    requires Known(refs, ordered, receipt, profiles)
    ensures items == Overlays(refs, ordered, receipt, context, member, profiles)
  {
    var counts := CountGroups(profiles);
    items := [];
    var i := 0;
    ghost var all := Overlays(refs, ordered, receipt, context, member, profiles);
    while i < |refs|
      invariant 0 <= i <= |refs| && items == all[..i]
    {
      var item := BuildOverlay(refs[i], counts, ordered, receipt, context, member, profiles);
      assert all[..i + 1] == all[..i] + [all[i]];
      items := items + [item];
      i := i + 1;
    }
    assert all[..i] == all;
  }

  method ContextualizePrediction(hash: Hash, chash: ContextHash, frame: Frame, components: seq<Prediction>, base: Prediction,
                                 receipt: Receipt, context: Context, profiles: seq<Relevance>, assemblyAt: int)
    returns (r: Result<(Prediction, ContextualReceipt), ContextFault>)
    ensures r == Contextualize(hash, chash, frame, components, base, receipt, context, profiles, assemblyAt)
  {
    var ordered := Sorted(components, ComponentLe);
    var fault := Checked(hash, frame, ordered, base, receipt, context, profiles, assemblyAt);
    if fault.Some? { return Err(fault.value); }
    CheckedMeansKnown(hash, frame, ordered, base, receipt, context, profiles, assemblyAt);
    var member := context.members[frame.instrument.canonicalId];
    var items := BuildOverlays(Sorted(Refs(ordered), TextLe), ordered, receipt, context, member, profiles);
    var u := Unnormalized(BaseOf(items), MultipliersOf(items));
    var total := ComputeRoundedSum(u);
    if u == [] || total <= 0.0 { return Err(TotalNotPositive); }
    var weights := ComputeRoundedWeights(u);
    var final := FinalPrediction(hash, chash, frame, base, context, profiles, assemblyAt, items, weights);
    if final.Err? { return Err(final.error); }
    return Ok((final.value, ReceiptFor(hash, chash, base, receipt, context, profiles, assemblyAt, final.value,
                                       ContributorsOf(hash, chash, items, weights))));
  }

  // ------------------------------------------------------------------ the contract

  predicate ValidContextContributor(c: ContextContributor) {
    && c.overlay.modelRef != ""
    && 0.0 < c.overlay.baseWeight < 1.0 && 0.0 < c.finalWeight < 1.0
    && MULTIPLIER_MIN <= c.overlay.multiplier <= MULTIPLIER_MAX
  }

  function FinalRefs(contributors: seq<ContextContributor>): seq<string> {
    seq(|contributors|, i requires 0 <= i < |contributors| => contributors[i].overlay.modelRef)
  }

  function FinalWeights(contributors: seq<ContextContributor>): seq<real> {
    seq(|contributors|, i requires 0 <= i < |contributors| => contributors[i].finalWeight)
  }

  /** What the constructor of a contextual receipt enforces. */
  ghost predicate ValidContextual(r: ContextualReceipt) {
    && r.receiptId != "" && r.assemblyAt >= 0
    && r.baseReceiptId != "" && r.basePredictionId != "" && r.contextId != "" && r.finalId != ""
    && |r.contributors| >= 2
    && (forall i :: 0 <= i < |r.contributors| ==> ValidContextContributor(r.contributors[i]))
    && StrictlySorted(FinalRefs(r.contributors))
    && RoundedSum(FinalWeights(r.contributors)) == 1.0
  }

  // ------------------------------------------------------------------ on a planned base

  /** The components in their order carry the references that the base receipt cites. */
  lemma {:induction false} RefsOfPlan(hash: Hash, w: World, frame: Frame, components: seq<Prediction>, at: int, base: Prediction, receipt: Receipt)
    requires Planned(hash, w, frame, components, at, base, receipt)
    ensures Refs(Sorted(components, ComponentLe)) == CitedRefs(receipt.contributors)
    ensures StrictlySorted(CitedRefs(receipt.contributors))
    ensures Sorted(Refs(Sorted(components, ComponentLe)), TextLe) == CitedRefs(receipt.contributors)
  {
    var items, skills, scores := PlannedParts(hash, w, frame, components, at, base, receipt);
    RefsTogether(hash, w, frame, components, at, base, receipt);
    BuiltRefs(hash, items, skills, scores, Cutoff(components), receipt);
    RefsOfItems(items);
    SortingOrderedChangesNothing(CitedRefs(receipt.contributors), TextLe);
  }

  lemma RefsOfItems(items: seq<Provisional>)
    requires forall i :: 0 <= i < |items| ==> |items[i].prediction.modelRefs| == 1
    ensures Refs(ItemPredictions(items)) == ModelRefs(items)
  {
  }

  /** The overlays start from the weights of the base receipt, contributor by contributor. */
  lemma OverlaysFollow(ordered: seq<Prediction>, receipt: Receipt, context: Context, member: Member, profiles: seq<Relevance>)
    requires StrictlySorted(CitedRefs(receipt.contributors))
    requires Known(CitedRefs(receipt.contributors), ordered, receipt, profiles)
    ensures
      var items := Overlays(CitedRefs(receipt.contributors), ordered, receipt, context, member, profiles);
      BaseOf(items) == Weights(receipt.contributors) && RefsOf(items) == CitedRefs(receipt.contributors)
  {
    var refs, cs := CitedRefs(receipt.contributors), receipt.contributors;
    var items := Overlays(refs, ordered, receipt, context, member, profiles);
    forall i | 0 <= i < |refs| ensures BaseOf(items)[i] == Weights(cs)[i] {
      forall a, b | 0 <= a < b < |cs| ensures ContributorRef(cs[a]) != ContributorRef(cs[b]) {
        assert TextLt(refs[a], refs[b]);
      }
      DictAt(cs, ContributorRef, i);
      assert items[i] == OverlayFor(refs[i], ordered, receipt, context, member, profiles);
    }
  }

  lemma {:induction false} OverlayWeights(scores: seq<real>, items: seq<Overlay>)
    requires Scores(scores) && 2 <= |scores| <= MOST_COMPONENTS && |items| == |scores|
    requires RoundedSum(scores) > 0.0 && BaseOf(items) == RoundedWeights(scores)
    requires forall i :: 0 <= i < |items| ==> MULTIPLIER_MIN <= items[i].multiplier <= MULTIPLIER_MAX
    ensures
      var u := Unnormalized(BaseOf(items), MultipliersOf(items));
      u != [] && RoundedSum(u) > 0.0 && |RoundedWeights(u)| == |items| && Closed(RoundedWeights(u)) && AllRounded(RoundedWeights(u))
    ensures forall i :: 0 <= i < |items| ==> 0.0 < items[i].baseWeight < 1.0
  {
    Z8Closes(scores);
    Z9Closes(scores, MultipliersOf(items));
    WeightsAreRounded(Unnormalized(BaseOf(items), MultipliersOf(items)));
    assert forall i :: 0 <= i < |items| ==> items[i].baseWeight == BaseOf(items)[i];
  }

  predicate Bounded(o: Overlay, components: seq<Prediction>) {
    o.component in components && 0.0 < o.baseWeight < 1.0 && MULTIPLIER_MIN <= o.multiplier <= MULTIPLIER_MAX
  }

  /** Overlays in the order of the base receipt, and weights that close. */
  ghost predicate Prepared(items: seq<Overlay>, weights: seq<real>, components: seq<Prediction>, receipt: Receipt) {
    && |items| == |weights| == |receipt.contributors| == |components| && 2 <= |weights| <= MOST_COMPONENTS
    && Closed(weights) && AllRounded(weights)
    && RefsOf(items) == CitedRefs(receipt.contributors) && StrictlySorted(RefsOf(items))
    && forall i :: 0 <= i < |items| ==> Bounded(items[i], components)
  }

  /** What a successful call consists of, when the base is a planned assembly of the same components. */
  ghost predicate Overlaid(hash: Hash, chash: ContextHash, frame: Frame, components: seq<Prediction>, base: Prediction,
                           receipt: Receipt, context: Context, profiles: seq<Relevance>, assemblyAt: int,
                           final: Prediction, r: ContextualReceipt, items: seq<Overlay>, weights: seq<real>)
  {
    && |items| == |weights| && Prepared(items, weights, components, receipt) && receipt.assemblyAt <= assemblyAt
    && FinalPrediction(hash, chash, frame, base, context, profiles, assemblyAt, items, weights) == Ok(final)
    && r == ReceiptFor(hash, chash, base, receipt, context, profiles, assemblyAt, final,
                       ContributorsOf(hash, chash, items, weights))
  }

  lemma ComponentOfOverlay(ref: string, ordered: seq<Prediction>, receipt: Receipt, context: Context, member: Member,
                           profiles: seq<Relevance>)
    requires KnownRef(ref, ordered, receipt, profiles)
    ensures OverlayFor(ref, ordered, receipt, context, member, profiles).component in ordered
  {
    DictHolds(ordered, RefOf);
  }

  lemma {:induction false} ComponentsOfOverlays(refs: seq<string>, components: seq<Prediction>, receipt: Receipt, context: Context, member: Member,
                             profiles: seq<Relevance>, i: nat)
    requires Known(refs, Sorted(components, ComponentLe), receipt, profiles) && i < |refs|
    ensures Overlays(refs, Sorted(components, ComponentLe), receipt, context, member, profiles)[i].component in components
  {
    SortedMembers(components, ComponentLe);
    ComponentOfOverlay(refs[i], Sorted(components, ComponentLe), receipt, context, member, profiles);
  }

  /** A call that passes the checks is the weighting of its overlays. */
  lemma {:induction false} ContextualizeIsWeighted(hash: Hash, chash: ContextHash, frame: Frame, components: seq<Prediction>, base: Prediction,
                                receipt: Receipt, context: Context, profiles: seq<Relevance>, assemblyAt: int, refs: seq<string>)
    requires Contextualize(hash, chash, frame, components, base, receipt, context, profiles, assemblyAt).Ok?
    requires Sorted(Refs(Sorted(components, ComponentLe)), TextLe) == refs
    ensures frame.instrument.canonicalId in context.members && receipt.assemblyAt <= assemblyAt
    ensures Known(refs, Sorted(components, ComponentLe), receipt, profiles)
    ensures
      var member := context.members[frame.instrument.canonicalId];
      Contextualize(hash, chash, frame, components, base, receipt, context, profiles, assemblyAt)
      == Weighted(hash, chash, frame, base, receipt, context, profiles, assemblyAt,
                  Overlays(refs, Sorted(components, ComponentLe), receipt, context, member, profiles))
  {
    CheckedMeansKnown(hash, frame, Sorted(components, ComponentLe), base, receipt, context, profiles, assemblyAt);
  }

  lemma WeightedParts(hash: Hash, chash: ContextHash, frame: Frame, base: Prediction, receipt: Receipt, context: Context,
                      profiles: seq<Relevance>, assemblyAt: int, items: seq<Overlay>)
    requires Weighted(hash, chash, frame, base, receipt, context, profiles, assemblyAt, items).Ok?
    ensures
      var u := Unnormalized(BaseOf(items), MultipliersOf(items));
      u != [] && RoundedSum(u) > 0.0 && |RoundedWeights(u)| == |items|
      && var (final, r) := Weighted(hash, chash, frame, base, receipt, context, profiles, assemblyAt, items).value;
         FinalPrediction(hash, chash, frame, base, context, profiles, assemblyAt, items, RoundedWeights(u)) == Ok(final)
         && r == ReceiptFor(hash, chash, base, receipt, context, profiles, assemblyAt, final,
                            ContributorsOf(hash, chash, items, RoundedWeights(u)))
  {
  }

  lemma {:induction false} ItemsAreBounded(refs: seq<string>, components: seq<Prediction>, receipt: Receipt, context: Context, member: Member,
                        profiles: seq<Relevance>, items: seq<Overlay>)
    requires Known(refs, Sorted(components, ComponentLe), receipt, profiles)
    requires items == Overlays(refs, Sorted(components, ComponentLe), receipt, context, member, profiles)
    requires forall i :: 0 <= i < |items| ==> 0.0 < items[i].baseWeight < 1.0
    ensures forall i :: 0 <= i < |items| ==> Bounded(items[i], components)
  {
    forall i | 0 <= i < |items| ensures Bounded(items[i], components) {
      ComponentsOfOverlays(refs, components, receipt, context, member, profiles, i);
    }
  }

  lemma PlannedItems(hash: Hash, w: World, frame: Frame, components: seq<Prediction>, at: int,
                     base: Prediction, receipt: Receipt, context: Context, member: Member, profiles: seq<Relevance>)
    returns (items: seq<Overlay>, scores: seq<real>)
    requires Planned(hash, w, frame, components, at, base, receipt)
    requires Known(CitedRefs(receipt.contributors), Sorted(components, ComponentLe), receipt, profiles)
    ensures items == Overlays(CitedRefs(receipt.contributors), Sorted(components, ComponentLe), receipt, context, member, profiles)
    ensures |items| == |scores| == |receipt.contributors| == |components| >= 2
    ensures Scores(scores) && RoundedSum(scores) > 0.0 && BaseOf(items) == RoundedWeights(scores)
    ensures RefsOf(items) == CitedRefs(receipt.contributors) && StrictlySorted(RefsOf(items))
  {
    RefsOfPlan(hash, w, frame, components, at, base, receipt);
    items := Overlays(CitedRefs(receipt.contributors), Sorted(components, ComponentLe), receipt, context, member, profiles);
    OverlaysFollow(Sorted(components, ComponentLe), receipt, context, member, profiles);
    scores := PlannedWeights(hash, w, frame, components, at, base, receipt);
  }

  /** The overlays of a planned base, and their weights. */
  lemma PlannedOverlays(hash: Hash, w: World, frame: Frame, components: seq<Prediction>, at: int,
                        base: Prediction, receipt: Receipt, context: Context, member: Member, profiles: seq<Relevance>)
    returns (items: seq<Overlay>, weights: seq<real>)
    requires Planned(hash, w, frame, components, at, base, receipt) && |components| <= MOST_COMPONENTS
    requires Known(CitedRefs(receipt.contributors), Sorted(components, ComponentLe), receipt, profiles)
    ensures items == Overlays(CitedRefs(receipt.contributors), Sorted(components, ComponentLe), receipt, context, member, profiles)
    ensures Prepared(items, weights, components, receipt)
    ensures
      var u := Unnormalized(BaseOf(items), MultipliersOf(items));
      u != [] && RoundedSum(u) > 0.0 && weights == RoundedWeights(u)
  {
    var scores;
    items, scores := PlannedItems(hash, w, frame, components, at, base, receipt, context, member, profiles);
    weights := WeightsOfItems(CitedRefs(receipt.contributors), components, receipt, context, member, profiles, items, scores);
  }

  lemma WeightsOfItems(refs: seq<string>, components: seq<Prediction>, receipt: Receipt, context: Context, member: Member,
                       profiles: seq<Relevance>, items: seq<Overlay>, scores: seq<real>)
    returns (weights: seq<real>)
    requires Known(refs, Sorted(components, ComponentLe), receipt, profiles) && refs == CitedRefs(receipt.contributors)
    requires items == Overlays(refs, Sorted(components, ComponentLe), receipt, context, member, profiles)
    requires |scores| == |items| == |receipt.contributors| == |components| && 2 <= |scores| <= MOST_COMPONENTS
    requires Scores(scores) && RoundedSum(scores) > 0.0 && BaseOf(items) == RoundedWeights(scores)
    requires RefsOf(items) == refs && StrictlySorted(RefsOf(items))
    ensures Prepared(items, weights, components, receipt)
    ensures
      var u := Unnormalized(BaseOf(items), MultipliersOf(items));
      u != [] && RoundedSum(u) > 0.0 && weights == RoundedWeights(u)
  {
    OverlayWeights(scores, items);
    ItemsAreBounded(refs, components, receipt, context, member, profiles, items);
    weights := RoundedWeights(Unnormalized(BaseOf(items), MultipliersOf(items)));
  }

  lemma OverlaidParts(hash: Hash, chash: ContextHash, w: World, frame: Frame, components: seq<Prediction>, at: int,
                      base: Prediction, receipt: Receipt, context: Context, profiles: seq<Relevance>, assemblyAt: int,
                      final: Prediction, r: ContextualReceipt)
    returns (items: seq<Overlay>, weights: seq<real>)
    requires Planned(hash, w, frame, components, at, base, receipt) && |components| <= MOST_COMPONENTS
    requires Contextualize(hash, chash, frame, components, base, receipt, context, profiles, assemblyAt) == Ok((final, r))
    ensures Overlaid(hash, chash, frame, components, base, receipt, context, profiles, assemblyAt, final, r, items, weights)
  {
    RefsOfPlan(hash, w, frame, components, at, base, receipt);
    ContextualizeIsWeighted(hash, chash, frame, components, base, receipt, context, profiles, assemblyAt,
                            CitedRefs(receipt.contributors));
    var member := context.members[frame.instrument.canonicalId];
    items, weights := PlannedOverlays(hash, w, frame, components, at, base, receipt, context, member, profiles);
    WeightedParts(hash, chash, frame, base, receipt, context, profiles, assemblyAt, items);
  }

  lemma OverlaidContributors(hash: Hash, chash: ContextHash, items: seq<Overlay>, weights: seq<real>)
    requires |items| == |weights|
    ensures FinalRefs(ContributorsOf(hash, chash, items, weights)) == RefsOf(items)
    ensures FinalWeights(ContributorsOf(hash, chash, items, weights)) == weights
  {
  }

  /** Every contextual receipt over a planned assembly satisfies its contract: bounded multipliers, weights
      strictly inside the unit interval, and a rounded sum of exactly 1. */
  lemma ContextualReceiptIsValid(hash: Hash, chash: ContextHash, w: World, frame: Frame, components: seq<Prediction>, at: int,
                                 base: Prediction, receipt: Receipt, context: Context, profiles: seq<Relevance>, assemblyAt: int)
    requires ValidJournal(w.predictions) && frame.frameId != "" && context.contextId != "" && |components| <= MOST_COMPONENTS
    requires Plan(hash, w, frame, components, at) == Ok((base, receipt))
    requires Contextualize(hash, chash, frame, components, base, receipt, context, profiles, assemblyAt).Ok?
    ensures ValidContextual(Contextualize(hash, chash, frame, components, base, receipt, context, profiles, assemblyAt).value.1)
  {
    PlanIsPlanned(hash, w, frame, components, at);
    PlannedReceiptIsValid(hash, w, frame, components, at);
    AssembledIsValid(hash, w, frame, components, at);
    var (final, r) := Contextualize(hash, chash, frame, components, base, receipt, context, profiles, assemblyAt).value;
    var items, weights := OverlaidParts(hash, chash, w, frame, components, at, base, receipt, context, profiles, assemblyAt,
                                        final, r);
    OverlaidIsValid(hash, chash, frame, components, base, receipt, context, profiles, assemblyAt, final, r, items, weights);
  }

  lemma OverlaidIsValid(hash: Hash, chash: ContextHash, frame: Frame, components: seq<Prediction>, base: Prediction,
                        receipt: Receipt, context: Context, profiles: seq<Relevance>, assemblyAt: int,
                        final: Prediction, r: ContextualReceipt, items: seq<Overlay>, weights: seq<real>)
    requires ValidReceipt(receipt) && base.predictionId != "" && context.contextId != ""
    requires Overlaid(hash, chash, frame, components, base, receipt, context, profiles, assemblyAt, final, r, items, weights)
    ensures ValidContextual(r)
  {
    OverlaidContributors(hash, chash, items, weights);
    forall i | 0 <= i < |r.contributors| ensures ValidContextContributor(r.contributors[i]) {
      assert RefsOf(items)[i] == receipt.contributors[i].modelRef && ValidContributor(receipt.contributors[i]);
    }
  }

  // ------------------------------------------------------------------ the final forecast

  lemma OverlaidForecast(hash: Hash, chash: ContextHash, frame: Frame, components: seq<Prediction>, base: Prediction,
                         receipt: Receipt, context: Context, profiles: seq<Relevance>, assemblyAt: int,
                         final: Prediction, r: ContextualReceipt, items: seq<Overlay>, weights: seq<real>,
                         lowMove: real, highMove: real, lowProbability: real, highProbability: real)
    requires Overlaid(hash, chash, frame, components, base, receipt, context, profiles, assemblyAt, final, r, items, weights)
    requires Ranges(components, lowMove, highMove, lowProbability, highProbability)
    ensures InRange(final.expectedMove, FinalWeights(r.contributors), lowMove, highMove)
    ensures InRange(final.probabilityPositive, FinalWeights(r.contributors), lowProbability, highProbability)
    ensures 0.0 <= lowProbability && highProbability <= 1.0 ==> 0.0 <= final.probabilityPositive <= 1.0
  {
    OverlaidContributors(hash, chash, items, weights);
    assert final.expectedMove == Forecast(MovesOf(items), weights);
    assert final.probabilityPositive == Forecast(ChancesOf(items), weights);
    BoundedRanges(items, components, lowMove, highMove, lowProbability, highProbability);
    WeightedInRange(MovesOf(items), weights, lowMove, highMove);
    WeightedInRange(ChancesOf(items), weights, lowProbability, highProbability);
    if 0.0 <= lowProbability && highProbability <= 1.0 {
      ProbabilityStays(ChancesOf(items), weights);
    }
  }

  lemma BoundedRanges(items: seq<Overlay>, components: seq<Prediction>,
                      lowMove: real, highMove: real, lowProbability: real, highProbability: real)
    requires forall i :: 0 <= i < |items| ==> Bounded(items[i], components)
    requires Ranges(components, lowMove, highMove, lowProbability, highProbability)
    ensures forall i :: 0 <= i < |items| ==> lowMove <= MovesOf(items)[i] <= highMove
    ensures forall i :: 0 <= i < |items| ==> lowProbability <= ChancesOf(items)[i] <= highProbability
  {
    forall i | 0 <= i < |items|
      ensures lowMove <= MovesOf(items)[i] <= highMove && lowProbability <= ChancesOf(items)[i] <= highProbability
    {
      assert Bounded(items[i], components);
    }
  }

  /** The contextual forecast lies in the range of the component forecasts as the assembled one does. */
  lemma ContextualForecast(hash: Hash, chash: ContextHash, w: World, frame: Frame, components: seq<Prediction>, at: int,
                           base: Prediction, receipt: Receipt, context: Context, profiles: seq<Relevance>, assemblyAt: int,
                           lowMove: real, highMove: real, lowProbability: real, highProbability: real)
    requires Plan(hash, w, frame, components, at) == Ok((base, receipt)) && |components| <= MOST_COMPONENTS
    requires Contextualize(hash, chash, frame, components, base, receipt, context, profiles, assemblyAt).Ok?
    requires Ranges(components, lowMove, highMove, lowProbability, highProbability)
    ensures
      var (final, r) := Contextualize(hash, chash, frame, components, base, receipt, context, profiles, assemblyAt).value;
      && InRange(final.expectedMove, FinalWeights(r.contributors), lowMove, highMove)
      && InRange(final.probabilityPositive, FinalWeights(r.contributors), lowProbability, highProbability)
      && (0.0 <= lowProbability && highProbability <= 1.0 ==> 0.0 <= final.probabilityPositive <= 1.0)
  {
    PlanIsPlanned(hash, w, frame, components, at);
    var (final, r) := Contextualize(hash, chash, frame, components, base, receipt, context, profiles, assemblyAt).value;
    var items, weights := OverlaidParts(hash, chash, w, frame, components, at, base, receipt, context, profiles, assemblyAt,
                                        final, r);
    OverlaidForecast(hash, chash, frame, components, base, receipt, context, profiles, assemblyAt, final, r, items, weights,
                     lowMove, highMove, lowProbability, highProbability);
  }

  /** The final weights keep every forecast in the range of its components exactly when they keep the
      range's two ends. */
  lemma ContextualRangeExactly(hash: Hash, chash: ContextHash, w: World, frame: Frame, components: seq<Prediction>, at: int,
                               base: Prediction, receipt: Receipt, context: Context, profiles: seq<Relevance>, assemblyAt: int,
                               low: real, high: real)
    requires Plan(hash, w, frame, components, at) == Ok((base, receipt)) && |components| <= MOST_COMPONENTS && low <= high
    requires Contextualize(hash, chash, frame, components, base, receipt, context, profiles, assemblyAt).Ok?
    ensures
      var r := Contextualize(hash, chash, frame, components, base, receipt, context, profiles, assemblyAt).value.1;
      var weights := FinalWeights(r.contributors);
      (forall x :: |x| == |weights| && Inside(x, low, high) ==> low <= Forecast(x, weights) <= high)
      <==> KeepsEnds(weights, low, high)
  {
    PlanIsPlanned(hash, w, frame, components, at);
    var (final, r) := Contextualize(hash, chash, frame, components, base, receipt, context, profiles, assemblyAt).value;
    var items, weights := OverlaidParts(hash, chash, w, frame, components, at, base, receipt, context, profiles, assemblyAt,
                                        final, r);
    OverlaidContributors(hash, chash, items, weights);
    RangeKeptExactly(weights, low, high);
  }

  // ------------------------------------------------------------------ how far the overlay moves a weight

  /** No context raises a multiplier above 1.15. */
  lemma {:induction false} OverlayMultiplier(ref: string, ordered: seq<Prediction>, receipt: Receipt, context: Context, member: Member,
                            profiles: seq<Relevance>)
    requires KnownRef(ref, ordered, receipt, profiles)
    ensures OverlayFor(ref, ordered, receipt, context, member, profiles).multiplier <= 1.15
  {
    DictHolds(ordered, RefOf);
    var profile := ByProfile(profiles)[ref];
    UpperClampIsIdle(FeatureFactor(profile.dependencies, context.quality),
                     RegimeFactor(profile.preferred, profile.adverse, context.regimes), member.reliability, member.freshness,
                     GroupCount(profiles, profile.group) > 1);
  }

  predicate NearBase(base: real, final: real) {
    (15.0 / 23.0) * base - 3.0 * SLACK <= final <= (23.0 / 15.0) * base + 3.0 * SLACK
  }

  lemma {:induction false} OverlaidNearBase(scores: seq<real>, items: seq<Overlay>, i: nat)
    requires Scores(scores) && 2 <= |scores| <= MOST_COMPONENTS && |items| == |scores| && i < |items|
    requires RoundedSum(scores) > 0.0 && BaseOf(items) == RoundedWeights(scores)
    requires forall k :: 0 <= k < |items| ==> MULTIPLIER_MIN <= items[k].multiplier <= 1.15
    ensures
      var u := Unnormalized(BaseOf(items), MultipliersOf(items));
      u != [] && RoundedSum(u) > 0.0 && |RoundedWeights(u)| == |items| && NearBase(BaseOf(items)[i], RoundedWeights(u)[i])
  {
    OverlayNearBase(scores, MultipliersOf(items), i);
  }

  lemma PlannedInfluence(hash: Hash, w: World, frame: Frame, components: seq<Prediction>, at: int, base: Prediction,
                         receipt: Receipt, context: Context, member: Member, profiles: seq<Relevance>, i: nat)
    returns (items: seq<Overlay>)
    requires Planned(hash, w, frame, components, at, base, receipt) && |components| <= MOST_COMPONENTS
    requires Known(CitedRefs(receipt.contributors), Sorted(components, ComponentLe), receipt, profiles)
    requires i < |receipt.contributors|
    ensures items == Overlays(CitedRefs(receipt.contributors), Sorted(components, ComponentLe), receipt, context, member, profiles)
    ensures BaseOf(items) == Weights(receipt.contributors) && RefsOf(items) == CitedRefs(receipt.contributors)
    ensures
      var u := Unnormalized(BaseOf(items), MultipliersOf(items));
      u != [] && RoundedSum(u) > 0.0 && |RoundedWeights(u)| == |items| && NearBase(BaseOf(items)[i], RoundedWeights(u)[i])
  {
    var refs, scores := CitedRefs(receipt.contributors), [];
    items, scores := PlannedItems(hash, w, frame, components, at, base, receipt, context, member, profiles);
    OverlaysFollow(Sorted(components, ComponentLe), receipt, context, member, profiles);
    forall k | 0 <= k < |items| ensures MULTIPLIER_MIN <= items[k].multiplier <= 1.15 {
      OverlayMultiplier(refs[k], Sorted(components, ComponentLe), receipt, context, member, profiles);
    }
    OverlaidNearBase(scores, items, i);
  }

  lemma InfluenceOn(hash: Hash, chash: ContextHash, items: seq<Overlay>, weights: seq<real>, cs: seq<Contributor>, i: nat)
    requires |items| == |weights| == |cs| && i < |items| && BaseOf(items) == Weights(cs) && RefsOf(items) == CitedRefs(cs)
    requires NearBase(BaseOf(items)[i], weights[i])
    ensures
      var contributors := ContributorsOf(hash, chash, items, weights);
      && |contributors| == |cs| && contributors[i].overlay.modelRef == cs[i].modelRef
      && contributors[i].overlay.baseWeight == cs[i].weight
      && NearBase(cs[i].weight, contributors[i].finalWeight)
  {
    assert Weights(cs)[i] == cs[i].weight && BaseOf(items)[i] == items[i].baseWeight;
    assert RefsOf(items)[i] == items[i].modelRef && CitedRefs(cs)[i] == cs[i].modelRef;
  }

  lemma OverlaidInfluence(hash: Hash, chash: ContextHash, w: World, frame: Frame, components: seq<Prediction>, at: int,
                          base: Prediction, receipt: Receipt, context: Context, profiles: seq<Relevance>, assemblyAt: int,
                          final: Prediction, r: ContextualReceipt, i: nat)
    requires Planned(hash, w, frame, components, at, base, receipt) && |components| <= MOST_COMPONENTS
    requires Contextualize(hash, chash, frame, components, base, receipt, context, profiles, assemblyAt) == Ok((final, r))
    requires i < |receipt.contributors|
    ensures |r.contributors| == |receipt.contributors|
    ensures r.contributors[i].overlay.modelRef == receipt.contributors[i].modelRef
    ensures r.contributors[i].overlay.baseWeight == receipt.contributors[i].weight
    ensures NearBase(receipt.contributors[i].weight, r.contributors[i].finalWeight)
  {
    RefsOfPlan(hash, w, frame, components, at, base, receipt);
    ContextualizeIsWeighted(hash, chash, frame, components, base, receipt, context, profiles, assemblyAt,
                            CitedRefs(receipt.contributors));
    var member := context.members[frame.instrument.canonicalId];
    var items := PlannedInfluence(hash, w, frame, components, at, base, receipt, context, member, profiles, i);
    WeightedParts(hash, chash, frame, base, receipt, context, profiles, assemblyAt, items);
    InfluenceOn(hash, chash, items, RoundedWeights(Unnormalized(BaseOf(items), MultipliersOf(items))), receipt.contributors, i);
  }

  /** No context moves a contributor's weight far from its weight in the base receipt: it keeps at least 15/23
      and gets at most 23/15 of it, up to the slack. */
  lemma ContextualInfluence(hash: Hash, chash: ContextHash, w: World, frame: Frame, components: seq<Prediction>, at: int,
                            base: Prediction, receipt: Receipt, context: Context, profiles: seq<Relevance>, assemblyAt: int,
                            i: nat)
    requires Plan(hash, w, frame, components, at) == Ok((base, receipt)) && |components| <= MOST_COMPONENTS
    requires Contextualize(hash, chash, frame, components, base, receipt, context, profiles, assemblyAt).Ok?
    requires i < |receipt.contributors|
    ensures
      var r := Contextualize(hash, chash, frame, components, base, receipt, context, profiles, assemblyAt).value.1;
      && |r.contributors| == |receipt.contributors|
      && r.contributors[i].overlay.modelRef == receipt.contributors[i].modelRef
      && r.contributors[i].overlay.baseWeight == receipt.contributors[i].weight
      && NearBase(receipt.contributors[i].weight, r.contributors[i].finalWeight)
  {
    PlanIsPlanned(hash, w, frame, components, at);
    var (final, r) := Contextualize(hash, chash, frame, components, base, receipt, context, profiles, assemblyAt).value;
    OverlaidInfluence(hash, chash, w, frame, components, at, base, receipt, context, profiles, assemblyAt, final, r, i);
  }

  // ------------------------------------------------------------------ the final prediction's contract

  predicate OnTime(p: Prediction) { p.resolvesAt == p.predictionAt + p.horizon }

  lemma CreatedParts(hash: Hash, frame: Frame, mode: Mode, predictionAt: int, createdAt: int, horizon: int, move: real,
                     chance: real, interval: Option<Interval>, refs: seq<string>, id: string, p: Prediction)
    requires CreatePrediction(hash, frame, mode, predictionAt, createdAt, horizon, move, chance, interval, refs).Ok?
    requires p == CreatePrediction(hash, frame, mode, predictionAt, createdAt, horizon, move, chance, interval, refs).value
                  .(predictionId := id)
    ensures p.predictionId == id && p.mode == mode && p.evidenceClass == ClassOf(mode)
    ensures p.targetMetric == TARGET_METRIC && p.frameStatus == frame.status && !frame.status.UNAVAILABLE?
    ensures p.predictionAt == predictionAt && p.createdAt == createdAt && p.horizon == horizon
    ensures OnTime(p) && p.referencePrice.value > 0.0
    ensures p.expectedMove == move && p.probabilityPositive == chance && p.interval == interval && p.modelRefs == refs
  {
  }

  /** What a created prediction takes from its frame and from its base. */
  lemma FinalParts(hash: Hash, chash: ContextHash, frame: Frame, base: Prediction, context: Context, profiles: seq<Relevance>,
                   assemblyAt: int, items: seq<Overlay>, weights: seq<real>, final: Prediction)
    requires |items| == |weights|
    requires FinalPrediction(hash, chash, frame, base, context, profiles, assemblyAt, items, weights) == Ok(final)
    ensures final.predictionId != "" && final.mode == base.mode && final.evidenceClass == ClassOf(base.mode)
    ensures final.targetMetric == TARGET_METRIC && final.frameStatus == frame.status && !frame.status.UNAVAILABLE?
    ensures final.predictionAt == base.predictionAt && final.createdAt == assemblyAt && final.horizon == base.horizon
    ensures final.interval == Widest(IntervalsOf(items)) && final.modelRefs == RefsOf(items)
  {
    CreatedParts(hash, frame, base.mode, base.predictionAt, assemblyAt, base.horizon, Forecast(MovesOf(items), weights),
                 Forecast(ChancesOf(items), weights), Widest(IntervalsOf(items)), RefsOf(items),
                 FinalId(hash, chash, base, context, profiles, assemblyAt, RefsOf(items), weights), final);
  }

  lemma FinalIsOnTime(hash: Hash, chash: ContextHash, frame: Frame, base: Prediction, context: Context, profiles: seq<Relevance>,
                      assemblyAt: int, items: seq<Overlay>, weights: seq<real>, final: Prediction)
    requires |items| == |weights|
    requires FinalPrediction(hash, chash, frame, base, context, profiles, assemblyAt, items, weights) == Ok(final)
    ensures OnTime(final) && !Late(final) && final.referencePrice.value > 0.0
  {
    CreatedParts(hash, frame, base.mode, base.predictionAt, assemblyAt, base.horizon, Forecast(MovesOf(items), weights),
                 Forecast(ChancesOf(items), weights), Widest(IntervalsOf(items)), RefsOf(items),
                 FinalId(hash, chash, base, context, profiles, assemblyAt, RefsOf(items), weights), final);
  }

  lemma OrderedEnvelope(items: seq<Overlay>, components: seq<Prediction>)
    requires items != [] && forall i :: 0 <= i < |items| ==> Bounded(items[i], components)
    requires forall p :: p in components ==> ValidPrediction(p)
    ensures Widest(IntervalsOf(items)).Some? ==> Widest(IntervalsOf(items)).value.low <= Widest(IntervalsOf(items)).value.high
  {
    if Widest(IntervalsOf(items)).Some? {
      WidestCovers(IntervalsOf(items), 0);
      assert IntervalsOf(items)[0] == items[0].component.interval;
      assert Bounded(items[0], components) && ValidPrediction(items[0].component);
    }
  }

  lemma SortedAreDistinct(refs: seq<string>)
    requires refs != [] && StrictlySorted(refs) && forall i :: 0 <= i < |refs| ==> refs[i] != ""
    ensures DistinctNonEmpty(refs)
  {
  }

  lemma OverlaidPrediction(hash: Hash, chash: ContextHash, frame: Frame, components: seq<Prediction>, base: Prediction,
                           receipt: Receipt, context: Context, profiles: seq<Relevance>, assemblyAt: int,
                           final: Prediction, r: ContextualReceipt, items: seq<Overlay>, weights: seq<real>)
    requires Overlaid(hash, chash, frame, components, base, receipt, context, profiles, assemblyAt, final, r, items, weights)
    requires ValidPrediction(base) && base.frameStatus == frame.status && ValidReceipt(receipt)
    requires forall p :: p in components ==> ValidPrediction(p)
    requires 0.0 <= final.probabilityPositive <= 1.0
    ensures ValidPrediction(final)
  {
    FinalParts(hash, chash, frame, base, context, profiles, assemblyAt, items, weights, final);
    FinalIsOnTime(hash, chash, frame, base, context, profiles, assemblyAt, items, weights, final);
    OrderedEnvelope(items, components);
    forall i | 0 <= i < |items| ensures RefsOf(items)[i] != "" {
      assert RefsOf(items)[i] == receipt.contributors[i].modelRef && ValidContributor(receipt.contributors[i]);
    }
    SortedAreDistinct(RefsOf(items));
  }

  lemma {:induction false} UnitRanges(components: seq<Prediction>)
    requires forall p :: p in components ==> ValidPrediction(p)
    ensures Ranges(components, LowestMove(components), HighestMove(components), 0.0, 1.0)
  {
  }

  /** Whatever the overlay, the final prediction satisfies the prediction contract. */
  lemma ContextualPredictionIsValid(hash: Hash, chash: ContextHash, w: World, frame: Frame, components: seq<Prediction>, at: int,
                                    base: Prediction, receipt: Receipt, context: Context, profiles: seq<Relevance>, assemblyAt: int)
    requires ValidJournal(w.predictions) && frame.frameId != "" && |components| <= MOST_COMPONENTS
    requires Plan(hash, w, frame, components, at) == Ok((base, receipt))
    requires Contextualize(hash, chash, frame, components, base, receipt, context, profiles, assemblyAt).Ok?
    ensures ValidPrediction(Contextualize(hash, chash, frame, components, base, receipt, context, profiles, assemblyAt).value.0)
  {
    PlanIsPlanned(hash, w, frame, components, at);
    PlannedReceiptIsValid(hash, w, frame, components, at);
    AssembledIsValid(hash, w, frame, components, at);
    PlannedBase(hash, w, frame, components, at, base, receipt);
    DurableComponentsAreValid(w, components, at);
    UnitRanges(components);
    var (final, r) := Contextualize(hash, chash, frame, components, base, receipt, context, profiles, assemblyAt).value;
    var items, weights := OverlaidParts(hash, chash, w, frame, components, at, base, receipt, context, profiles, assemblyAt,
                                        final, r);
    OverlaidForecast(hash, chash, frame, components, base, receipt, context, profiles, assemblyAt, final, r, items, weights,
                     LowestMove(components), HighestMove(components), 0.0, 1.0);
    OverlaidPrediction(hash, chash, frame, components, base, receipt, context, profiles, assemblyAt, final, r, items, weights);
  }
}

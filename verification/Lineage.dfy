/** The validator side of Z8: autonomous_kernel/assembly/lineage.py re-derives every fact that a
    receipt cites, and agrees with the producer. */
module Lineage {
  import opened Prelude
  import opened Sorting
  import opened Evidence
  import opened Competence
  import opened CompetenceProfiles
  import opened Weighting
  import opened Assembly

  // ------------------------------------------------------------------ the validator's registry fold

  datatype CitedRecord = CitedRecord(state: ModelState, eventHash: string, definitionHash: string, artifactHash: string)

  function CitedAfter(record: Option<CitedRecord>, e: ModelEvent, modelRef: string, asOf: int): Option<CitedRecord> {
    if e.modelRef != modelRef || e.occurredAt > asOf then record
    else match e.change
      case Registered(_, definitionHash, artifactHash) =>
        Some(CitedRecord(CANDIDATE, e.eventHash, definitionHash, artifactHash))
      case Transitioned(toState) =>
        if record.None? then None else Some(record.value.(state := toState, eventHash := e.eventHash))
  }

  function CitedAt(events: seq<ModelEvent>, modelRef: string, asOf: int): Option<CitedRecord> {
    if events == [] then None
    else CitedAfter(CitedAt(events[..|events| - 1], modelRef, asOf), events[|events| - 1], modelRef, asOf)
  }

  /** _registry_record_at of lineage.py. */
  method CitedRecordAt(events: seq<ModelEvent>, modelRef: string, asOf: int) returns (record: Option<CitedRecord>)
    ensures record == CitedAt(events, modelRef, asOf)
  {
    record := None;
    var i := 0;
    while i < |events|
      invariant 0 <= i <= |events| && record == CitedAt(events[..i], modelRef, asOf)
    {
      assert events[..i + 1][..i] == events[..i];
      var e := events[i];
      if e.modelRef == modelRef && e.occurredAt <= asOf {
        if e.change.Registered? {
          record := Some(CitedRecord(CANDIDATE, e.eventHash, e.change.definitionHash, e.change.artifactHash));
        } else if record.Some? {
          record := Some(record.value.(state := e.change.toState, eventHash := e.eventHash));
        }
      }
      i := i + 1;
    }
    assert events[..i] == events;
  }

  function Cited(record: Option<ModelRecord>): Option<CitedRecord> {
    if record.None? then None
    else Some(CitedRecord(record.value.state, record.value.eventHash,
                          record.value.definitionHash, record.value.artifactHash))
  }

  /** The two registry folds agree on every fact a receipt cites. */
  lemma {:induction false} RecordsAgree(events: seq<ModelEvent>, modelRef: string, asOf: int)
    ensures CitedAt(events, modelRef, asOf) == Cited(RecordAt(events, modelRef, asOf))
  {
    if events != [] {
      RecordsAgree(events[..|events| - 1], modelRef, asOf);
    }
  }

  lemma {:induction false} CitedGrowth(events: seq<ModelEvent>, extra: seq<ModelEvent>, modelRef: string, asOf: int)
    requires forall i :: 0 <= i < |extra| ==> extra[i].occurredAt > asOf
    ensures CitedAt(events + extra, modelRef, asOf) == CitedAt(events, modelRef, asOf)
  {
    RecordsAgree(events, modelRef, asOf);
    RecordsAgree(events + extra, modelRef, asOf);
    RecordGrowth(events, extra, modelRef, asOf);
  }

  // ------------------------------------------------------------------ the validator's profile choice

  function Matches(profiles: seq<Profile>, p: Prediction, componentHash: string): seq<Profile>
    requires p.modelRefs != []
  {
    if profiles == [] then []
    else
      var last := profiles[|profiles| - 1];
      Matches(profiles[..|profiles| - 1], p, componentHash)
      + (if InSegment(last, p) && componentHash !in last.predictionHashes then [last] else [])
  }

  /** _matching_profile: no time filter, and ambiguity counts as no profile. */
  function MatchingProfile(hash: Hash, profiles: seq<Profile>, p: Prediction, componentHash: string): Option<Profile>
    requires p.modelRefs != []
  {
    var matches := Matches(profiles, p, componentHash);
    if matches == [] then None
    else
      OfLatestTime(matches);
      var latest := OfTime(matches, LatestAsOf(matches));
      if SameHash(hash, latest) then Some(latest[|latest| - 1]) else None
  }

  ghost predicate OnePerSegment(profiles: seq<Profile>, asOf: int) {
    && (forall i, j :: 0 <= i < j < |profiles| ==> profiles[i].segment != profiles[j].segment)
    && (forall i :: 0 <= i < |profiles| ==> profiles[i].asOf == asOf)
  }

  lemma {:induction false} AtMostOneMatch(profiles: seq<Profile>, p: Prediction, componentHash: string, asOf: int, latest: int)
    requires OnePerSegment(profiles, asOf) && |p.modelRefs| == 1 && asOf <= latest
    ensures
      var matches := Matches(profiles, p, componentHash);
      && Candidates(profiles, p, componentHash, latest) == matches
      && |matches| <= 1
      && forall m :: m in matches ==>
           m in profiles && m.segment == SegmentOf(p) && m.asOf == asOf && componentHash !in m.predictionHashes
  {
    if profiles != [] {
      var n := |profiles| - 1;
      AtMostOneMatch(profiles[..n], p, componentHash, asOf, latest);
      var before := Matches(profiles[..n], p, componentHash);
      if before != [] {
        assert before[0] in before && before[0] in profiles[..n];
        var k :| 0 <= k < n && profiles[k] == before[0];
        assert !InSegment(profiles[n], p);
      }
    }
  }

  lemma {:induction false} OnlyOneOfTime(hash: Hash, matches: seq<Profile>)
    requires |matches| == 1
    ensures OfTime(matches, LatestAsOf(matches)) == matches == [matches[0]] && SameHash(hash, matches)
  {
    assert matches[..0] == [];
  }

  /** On the profiles of one build, producer and validator choose the same profile, neither meets an
      ambiguity, and the choice excludes the component's own prediction. */
  lemma ChoicesAgree(hash: Hash, profiles: seq<Profile>, p: Prediction, asOf: int, assemblyAt: int)
    requires OnePerSegment(profiles, asOf) && |p.modelRefs| == 1 && asOf <= assemblyAt
    ensures
      var chosen := MatchingProfile(hash, profiles, p, hash(PredictionBody(p)));
      && SelectProfile(hash, profiles, p, assemblyAt) == Ok(chosen)
      && (chosen.Some? ==> chosen.value in profiles && chosen.value.segment == SegmentOf(p)
                           && chosen.value.asOf == asOf
                           && hash(PredictionBody(p)) !in chosen.value.predictionHashes)
  {
    AtMostOneMatch(profiles, p, hash(PredictionBody(p)), asOf, assemblyAt);
    var matches := Matches(profiles, p, hash(PredictionBody(p)));
    if matches != [] {
      OnlyOneOfTime(hash, matches);
    }
  }

  // ------------------------------------------------------------------ the validator

  datatype LineageError =
    | AssembledAbsent | AssembledHash | AssembledRepresentation | AssembledTiming | AssembledContract | ContributorRefs
    | ComponentAbsent(ref: string) | ComponentHash(ref: string) | Ownership(ref: string)
    | ComponentRepresentation(ref: string) | ComponentClass(ref: string) | ComponentContract(ref: string)
    | UnregisteredThen(ref: string) | RegistryState(ref: string) | RegistryEvent(ref: string)
    | DefinitionMismatch(ref: string) | ArtifactMismatch(ref: string)
    | CutoffInvalid(ref: string) | FalseCitation(ref: string) | ProfileMismatch(ref: string) | ProfileTime(ref: string)

  function When(broken: bool, e: LineageError): seq<LineageError> { if broken then [e] else [] }

  function AssembledErrors(hash: Hash, assembled: Prediction, r: Receipt): seq<LineageError> {
    When(hash(PredictionBody(assembled)) != r.assembledHash, AssembledHash)
    + When(assembled.frameId != r.frameId || assembled.frameHash != r.frameHash, AssembledRepresentation)
    + When(assembled.predictionAt != r.predictionAt || assembled.horizon != r.horizon
           || assembled.resolvesAt != r.resolvesAt, AssembledTiming)
    + When(assembled.targetMetric != r.targetMetric || assembled.mode != r.mode
           || assembled.evidenceClass != r.evidenceClass, AssembledContract)
    + When(assembled.modelRefs != CitedRefs(r.contributors), ContributorRefs)
  }

  function CitedRefs(contributors: seq<Contributor>): seq<string> {
    seq(|contributors|, i requires 0 <= i < |contributors| => contributors[i].modelRef)
  }

  function ComponentErrors(hash: Hash, component: Prediction, r: Receipt, c: Contributor): seq<LineageError> {
    When(hash(PredictionBody(component)) != c.componentHash, ComponentHash(c.modelRef))
    + When(component.modelRefs != [c.modelRef], Ownership(c.modelRef))
    + When(component.frameId != r.frameId || component.frameHash != r.frameHash, ComponentRepresentation(c.modelRef))
    + When(component.mode != r.mode || component.evidenceClass != r.evidenceClass, ComponentClass(c.modelRef))
    + When(component.predictionAt != r.predictionAt || component.horizon != r.horizon
           || component.targetMetric != r.targetMetric, ComponentContract(c.modelRef))
  }

  function RegistryErrors(record: Option<CitedRecord>, c: Contributor): seq<LineageError> {
    match record
    case None => [UnregisteredThen(c.modelRef)]
    case Some(cited) =>
      When(cited.state != c.registryState, RegistryState(c.modelRef))
      + When(cited.eventHash != c.registryEventHash, RegistryEvent(c.modelRef))
      + When(cited.definitionHash != c.definitionHash, DefinitionMismatch(c.modelRef))
      + When(cited.artifactHash != c.artifactHash, ArtifactMismatch(c.modelRef))
  }

  function CompetenceErrors(hash: Hash, profile: Option<Profile>, c: Contributor): seq<LineageError> {
    match profile
    case None =>
      When(c.profileHash.Some? || !c.competenceStatus.NO_PRIOR_MATCHED_COMPETENCE?, FalseCitation(c.modelRef))
    case Some(p) =>
      When(c.profileHash != Some(hash(ProfileBody(p))) || !c.competenceStatus.MATCHED?, ProfileMismatch(c.modelRef))
      + When(c.profileAsOf != Some(p.asOf), ProfileTime(c.modelRef))
  }

  predicate CutoffValid(c: Contributor, r: Receipt) {
    c.competenceCutoff.Some? && 0 <= c.competenceCutoff.value <= r.assemblyAt
  }

  function ProfilesBy(hash: Hash, w: World, cutoff: int): seq<Profile> {
    BuildProfiles(hash, Predictions(w.predictions), w.outcomes, cutoff)
  }

  /** One round of the validator's loop. A durable prediction without a model reference does not occur;
      the profile choice reads the first one. */
  function ContributorErrors(hash: Hash, w: World, r: Receipt, c: Contributor): seq<LineageError> {
    var entry := Lookup(w.predictions, c.componentId);
    if entry.None? then [ComponentAbsent(c.modelRef)]
    else
      var component := entry.value.prediction;
      ComponentErrors(hash, component, r, c)
      + RegistryErrors(CitedAt(w.events, c.modelRef, r.assemblyAt), c)
      + (if !CutoffValid(c, r) then [CutoffInvalid(c.modelRef)]
         else CompetenceErrors(hash, ChosenProfile(hash, w, component, c.competenceCutoff.value), c))
  }

  function ChosenProfile(hash: Hash, w: World, component: Prediction, cutoff: int): Option<Profile> {
    if component.modelRefs == [] then None
    else MatchingProfile(hash, ProfilesBy(hash, w, cutoff), component, hash(PredictionBody(component)))
  }

  /** What a loop over the contributors collects. */
  function Collected(errors: Contributor -> seq<LineageError>, contributors: seq<Contributor>): seq<LineageError> {
    if contributors == [] then []
    else
      var n := |contributors| - 1;
      Collected(errors, contributors[..n]) + errors(contributors[n])
  }

  lemma {:induction false} CollectedNothing(errors: Contributor -> seq<LineageError>, contributors: seq<Contributor>)
    ensures Collected(errors, contributors) == []
      <==> forall i :: 0 <= i < |contributors| ==> errors(contributors[i]) == []
  {
    if contributors != [] {
      CollectedNothing(errors, contributors[..|contributors| - 1]);
    }
  }

  lemma CollectStep(errors: Contributor -> seq<LineageError>, contributors: seq<Contributor>, i: nat,
                    earlier: seq<LineageError>, before: seq<LineageError>, found: seq<LineageError>)
    requires i < |contributors| && found == errors(contributors[i])
    requires before == earlier + Collected(errors, contributors[..i])
    ensures before + found == earlier + Collected(errors, contributors[..i + 1])
  {
    assert contributors[..i + 1][..i] == contributors[..i];
  }

  function Checks(hash: Hash, w: World, r: Receipt): Contributor -> seq<LineageError> {
    c => ContributorErrors(hash, w, r, c)
  }

  function LineageErrors(hash: Hash, w: World, r: Receipt): seq<LineageError> {
    var assembled := Lookup(w.predictions, r.assembledId);
    if assembled.None? then [AssembledAbsent]
    else AssembledErrors(hash, assembled.value.prediction, r) + Collected(Checks(hash, w, r), r.contributors)
  }

  /** One round of the loop; the profiles of a cutoff are built once. */
  method CheckContributor(hash: Hash, w: World, r: Receipt, c: Contributor, cache: map<int, seq<Profile>>)
    returns (found: seq<LineageError>, after: map<int, seq<Profile>>)
    requires forall t :: t in cache ==> cache[t] == ProfilesBy(hash, w, t)
    ensures forall t :: t in after ==> after[t] == ProfilesBy(hash, w, t)
    ensures found == ContributorErrors(hash, w, r, c)
  {
    after := cache;
    var entry := Lookup(w.predictions, c.componentId);
    if entry.None? {
      return [ComponentAbsent(c.modelRef)], after;
    }
    var component := entry.value.prediction;
    var record := CitedRecordAt(w.events, c.modelRef, r.assemblyAt);
    found := ComponentErrors(hash, component, r, c) + RegistryErrors(record, c);
    if !CutoffValid(c, r) {
      found := found + [CutoffInvalid(c.modelRef)];
      return;
    }
    var cutoff := c.competenceCutoff.value;
    if cutoff !in cache {
      var profiles := BuildCompetenceProfiles(hash, Predictions(w.predictions), w.outcomes, cutoff);
      after := cache[cutoff := profiles];
    }
    var profile := if component.modelRefs == [] then None
                   else MatchingProfile(hash, after[cutoff], component, hash(PredictionBody(component)));
    found := found + CompetenceErrors(hash, profile, c);
  }

  /** The loop over the contributors, adding to the errors found so far. */
  method CheckContributors(hash: Hash, w: World, r: Receipt, earlier: seq<LineageError>) returns (errors: seq<LineageError>)
    ensures errors == earlier + Collected(Checks(hash, w, r), r.contributors)
  {
    ghost var checks := Checks(hash, w, r);
    errors := earlier;
    var cache: map<int, seq<Profile>> := map[];
    var i := 0;
    while i < |r.contributors|
      invariant 0 <= i <= |r.contributors|
      invariant forall t :: t in cache ==> cache[t] == ProfilesBy(hash, w, t)
      invariant errors == earlier + Collected(checks, r.contributors[..i])
    {
      var found;
      found, cache := CheckContributor(hash, w, r, r.contributors[i], cache);
      CollectStep(checks, r.contributors, i, earlier, errors, found);
      errors := errors + found;
      i := i + 1;
    }
    assert r.contributors[..i] == r.contributors;
  }

  /** validate_assembly_receipt_lineage. */
  method ValidateReceiptLineage(hash: Hash, w: World, r: Receipt) returns (errors: seq<LineageError>)
    ensures errors == LineageErrors(hash, w, r)
  {
    var assembled := Lookup(w.predictions, r.assembledId);
    if assembled.None? {
      return [AssembledAbsent];
    }
    errors := CheckContributors(hash, w, r, AssembledErrors(hash, assembled.value.prediction, r));
  }
}

/** build_competence_profiles: grouping the durable predictions known by a cutoff into segments and
    measuring each segment against the outcomes decided by that cutoff. */
module CompetenceProfiles {
  import opened Prelude
  import opened Sorting
  import opened Evidence
  import opened Competence

  // ------------------------------------------------------------------ what a cutoff lets through

  predicate Counted(p: Prediction, asOf: int) {
    p.createdAt <= asOf && |p.modelRefs| == 1
  }

  function Visible(journal: seq<Prediction>, asOf: int): (v: seq<Prediction>)
    ensures forall p :: p in v <==> p in journal && Counted(p, asOf)
  {
    if journal == [] then []
    else
      var n := |journal| - 1;
      assert forall p :: p in journal <==> p in journal[..n] || p == journal[n];
      Visible(journal[..n], asOf) + (if Counted(journal[n], asOf) then [journal[n]] else [])
  }

  function OutcomesBy(journal: seq<Outcome>, asOf: int): map<string, Outcome> {
    if journal == [] then map[]
    else
      var n := |journal| - 1;
      var earlier := OutcomesBy(journal[..n], asOf);
      if journal[n].decidedAt <= asOf then earlier[journal[n].predictionId := journal[n]] else earlier
  }

  lemma {:induction false} VisibleGrowth(journal: seq<Prediction>, extra: seq<Prediction>, asOf: int)
    requires forall i :: 0 <= i < |extra| ==> !Counted(extra[i], asOf)
    ensures Visible(journal + extra, asOf) == Visible(journal, asOf)
  {
    if extra == [] {
      assert journal + extra == journal;
    } else {
      var n := |extra| - 1;
      assert (journal + extra)[..|journal + extra| - 1] == journal + extra[..n];
      VisibleGrowth(journal, extra[..n], asOf);
    }
  }

  lemma {:induction false} OutcomesGrowth(journal: seq<Outcome>, extra: seq<Outcome>, asOf: int)
    requires forall i :: 0 <= i < |extra| ==> extra[i].decidedAt > asOf
    ensures OutcomesBy(journal + extra, asOf) == OutcomesBy(journal, asOf)
  {
    if extra == [] {
      assert journal + extra == journal;
    } else {
      var n := |extra| - 1;
      assert (journal + extra)[..|journal + extra| - 1] == journal + extra[..n];
      OutcomesGrowth(journal, extra[..n], asOf);
    }
  }

  // ------------------------------------------------------------------ segments

  function SegmentOf(p: Prediction): Segment
    requires |p.modelRefs| == 1
  {
    Segment(p.modelRefs[0], p.instrument.canonicalId, p.horizon, p.targetMetric, p.evidenceClass)
  }

  predicate SegmentLe(a: Segment, b: Segment) {
    if a.modelRef != b.modelRef then TextLe(a.modelRef, b.modelRef)
    else if a.instrumentId != b.instrumentId then TextLe(a.instrumentId, b.instrumentId)
    else if a.horizon != b.horizon then a.horizon < b.horizon
    else if a.targetMetric != b.targetMetric then TextLe(a.targetMetric, b.targetMetric)
    else a.evidenceClass.FORWARD_EVALUABLE? || b.evidenceClass.RESEARCH_ONLY?
  }

  predicate PredictionLe(a: Prediction, b: Prediction) {
    a.predictionAt < b.predictionAt || (a.predictionAt == b.predictionAt && TextLe(a.predictionId, b.predictionId))
  }

  predicate OutcomeLe(a: Outcome, b: Outcome) { TextLe(a.predictionId, b.predictionId) }

  ghost predicate AllSingle(predictions: seq<Prediction>) {
    forall i :: 0 <= i < |predictions| ==> |predictions[i].modelRefs| == 1
  }

  /** The distinct segments, in order of first appearance. */
  function SegmentsOf(predictions: seq<Prediction>): seq<Segment>
    requires AllSingle(predictions)
  {
    if predictions == [] then []
    else
      var n := |predictions| - 1;
      var earlier, s := SegmentsOf(predictions[..n]), SegmentOf(predictions[n]);
      if s in earlier then earlier else earlier + [s]
  }

  function Members(predictions: seq<Prediction>, s: Segment): seq<Prediction>
    requires AllSingle(predictions)
  {
    if predictions == [] then []
    else
      var n := |predictions| - 1;
      Members(predictions[..n], s) + (if SegmentOf(predictions[n]) == s then [predictions[n]] else [])
  }

  lemma {:induction false} SegmentsOfProperties(predictions: seq<Prediction>)
    requires AllSingle(predictions)
    ensures Distinct(SegmentsOf(predictions))
    ensures forall s :: s in SegmentsOf(predictions) <==>
      exists i :: 0 <= i < |predictions| && SegmentOf(predictions[i]) == s
  {
    if predictions != [] {
      var n := |predictions| - 1;
      SegmentsOfProperties(predictions[..n]);
      assert forall i :: 0 <= i < n ==> predictions[..n][i] == predictions[i];
    }
  }

  lemma {:induction false} MembersProperties(predictions: seq<Prediction>, s: Segment)
    requires AllSingle(predictions)
    ensures forall p :: p in Members(predictions, s) <==>
      p in predictions && |p.modelRefs| == 1 && SegmentOf(p) == s
  {
    if predictions != [] {
      var n := |predictions| - 1;
      MembersProperties(predictions[..n], s);
      assert forall p :: p in predictions <==> p in predictions[..n] || p == predictions[n];
    }
  }

  // ------------------------------------------------------------------ one profile

  function FinalOutcomes(group: seq<Prediction>, outcomes: map<string, Outcome>): seq<Outcome> {
    if group == [] then []
    else
      var n := |group| - 1;
      FinalOutcomes(group[..n], outcomes)
      + (if group[n].predictionId in outcomes then [outcomes[group[n].predictionId]] else [])
  }

  function ResolvedPairs(group: seq<Prediction>, outcomes: map<string, Outcome>): (pairs: seq<Sample>)
    ensures |pairs| <= |FinalOutcomes(group, outcomes)| <= |group|
  {
    if group == [] then []
    else
      var n := |group| - 1;
      var id := group[n].predictionId;
      ResolvedPairs(group[..n], outcomes)
      + (if id in outcomes && outcomes[id].verdict.RESOLVED? then [(group[n], outcomes[id])] else [])
  }

  function PredictionHashes(hash: Hash, group: seq<Prediction>): seq<string> {
    seq(|group|, i requires 0 <= i < |group| => hash(PredictionBody(group[i])))
  }

  function OutcomeHashes(hash: Hash, finals: seq<Outcome>): seq<string> {
    seq(|finals|, i requires 0 <= i < |finals| => hash(OutcomeBody(finals[i])))
  }

  function BuildProfile(hash: Hash, s: Segment, members: seq<Prediction>,
                        outcomes: map<string, Outcome>, asOf: int): (p: Profile)
    ensures p.segment == s && p.asOf == asOf
  {
    var group := Sorted(members, PredictionLe);
    var finals, pairs := FinalOutcomes(group, outcomes), ResolvedPairs(group, outcomes);
    Profile(s, asOf, |group|, |pairs|, |finals| - |pairs|, |group| - |finals|, ProfileMetrics(pairs),
            PredictionHashes(hash, group), OutcomeHashes(hash, Sorted(finals, OutcomeLe)))
  }

  lemma {:induction false} VisibleSingle(journal: seq<Prediction>, asOf: int)
    ensures AllSingle(Visible(journal, asOf))
  {
    forall i | 0 <= i < |Visible(journal, asOf)| ensures |Visible(journal, asOf)[i].modelRefs| == 1 {
      assert Visible(journal, asOf)[i] in Visible(journal, asOf);
    }
  }

  function SegmentKeys(journal: seq<Prediction>, asOf: int): seq<Segment> {
    VisibleSingle(journal, asOf);
    Sorted(SegmentsOf(Visible(journal, asOf)), SegmentLe)
  }

  function BuildProfiles(hash: Hash, predictions: seq<Prediction>, outcomes: seq<Outcome>, asOf: int): seq<Profile> {
    VisibleSingle(predictions, asOf);
    var keys := SegmentKeys(predictions, asOf);
    seq(|keys|, i requires 0 <= i < |keys| =>
      BuildProfile(hash, keys[i], Members(Visible(predictions, asOf), keys[i]), OutcomesBy(outcomes, asOf), asOf))
  }

  // ------------------------------------------------------------------ what a profile says

  lemma KeysAreSegments(predictions: seq<Prediction>, asOf: int)
    ensures Distinct(SegmentKeys(predictions, asOf))
    ensures forall s :: s in SegmentKeys(predictions, asOf) <==>
      exists p :: p in predictions && Counted(p, asOf) && SegmentOf(p) == s
  {
    VisibleSingle(predictions, asOf);
    var visible := Visible(predictions, asOf);
    var segments, keys := SegmentsOf(visible), SegmentKeys(predictions, asOf);
    SegmentsOfProperties(visible);
    SortedPermutes(segments, SegmentLe);
    SortedMembers(segments, SegmentLe);
    DistinctByMultiset(segments, keys);
    forall s ensures s in keys <==> exists p :: p in predictions && Counted(p, asOf) && SegmentOf(p) == s {
      if s in keys {
        var k :| 0 <= k < |visible| && SegmentOf(visible[k]) == s;
        assert visible[k] in visible;
      }
      if p :| p in predictions && Counted(p, asOf) && SegmentOf(p) == s {
        assert p in visible;
        var k :| 0 <= k < |visible| && visible[k] == p;
        assert s in segments;
      }
    }
  }

  lemma ProfileKeys(hash: Hash, predictions: seq<Prediction>, outcomes: seq<Outcome>, asOf: int)
    ensures
      var profiles, keys := BuildProfiles(hash, predictions, outcomes, asOf), SegmentKeys(predictions, asOf);
      && |profiles| == |keys|
      && forall i :: 0 <= i < |keys| ==> profiles[i].segment == keys[i] && profiles[i].asOf == asOf
  {
  }

  ghost predicate HasProfile(profiles: seq<Profile>, s: Segment) {
    exists i :: 0 <= i < |profiles| && profiles[i].segment == s
  }

  ghost predicate HasCounted(predictions: seq<Prediction>, asOf: int, s: Segment) {
    exists p :: p in predictions && Counted(p, asOf) && SegmentOf(p) == s
  }

  /** Each segment has one profile, and a segment has one exactly when a counted prediction is in it. */
  lemma ProfileSegments(hash: Hash, predictions: seq<Prediction>, outcomes: seq<Outcome>, asOf: int)
    ensures
      var profiles := BuildProfiles(hash, predictions, outcomes, asOf);
      && (forall i, j :: 0 <= i < j < |profiles| ==> profiles[i].segment != profiles[j].segment)
      && (forall i :: 0 <= i < |profiles| ==> profiles[i].asOf == asOf)
      && (forall s :: HasProfile(profiles, s) <==> HasCounted(predictions, asOf, s))
  {
    var profiles, keys := BuildProfiles(hash, predictions, outcomes, asOf), SegmentKeys(predictions, asOf);
    ProfileKeys(hash, predictions, outcomes, asOf);
    KeysAreSegments(predictions, asOf);
    forall s ensures HasProfile(profiles, s) <==> s in keys {
      if s in keys {
        var i :| 0 <= i < |keys| && keys[i] == s;
        assert profiles[i].segment == s;
      }
    }
  }

  lemma HashesOfGroup(hash: Hash, group: seq<Prediction>, h: string)
    ensures h in PredictionHashes(hash, group) <==> exists q :: q in group && h == hash(PredictionBody(q))
  {
    if h in PredictionHashes(hash, group) {
      var k :| 0 <= k < |group| && PredictionHashes(hash, group)[k] == h;
      assert group[k] in group;
    }
    if q :| q in group && h == hash(PredictionBody(q)) {
      var k :| 0 <= k < |group| && group[k] == q;
      assert PredictionHashes(hash, group)[k] == h;
    }
  }

  lemma {:induction false} ProfileCounts(hash: Hash, s: Segment, members: seq<Prediction>, outcomes: map<string, Outcome>, asOf: int)
    ensures
      var p := BuildProfile(hash, s, members, outcomes, asOf);
      && p.resolvedCount + p.unresolvableCount + p.pendingCount == p.predictionCount == |p.predictionHashes|
      && p.resolvedCount + p.unresolvableCount == |p.outcomeHashes|
      && p.predictionHashes == PredictionHashes(hash, Sorted(members, PredictionLe))
  {
    SortedPermutes(FinalOutcomes(Sorted(members, PredictionLe), outcomes), OutcomeLe);
  }

  lemma {:induction false} MembersAreCounted(predictions: seq<Prediction>, asOf: int, s: Segment)
    ensures AllSingle(Visible(predictions, asOf))
    ensures forall q :: q in Sorted(Members(Visible(predictions, asOf), s), PredictionLe)
                        <==> q in predictions && Counted(q, asOf) && SegmentOf(q) == s
  {
    VisibleSingle(predictions, asOf);
    MembersProperties(Visible(predictions, asOf), s);
    SortedMembers(Members(Visible(predictions, asOf), s), PredictionLe);
  }

  /** A profile cites exactly the counted predictions of its segment. */
  lemma ProfileCites(hash: Hash, predictions: seq<Prediction>, outcomes: seq<Outcome>, asOf: int, i: nat)
    requires i < |BuildProfiles(hash, predictions, outcomes, asOf)|
    ensures
      var p := BuildProfiles(hash, predictions, outcomes, asOf)[i];
      && (forall h :: h in p.predictionHashes <==>
            exists q :: q in predictions && Counted(q, asOf) && SegmentOf(q) == p.segment && h == hash(PredictionBody(q)))
      && p.resolvedCount + p.unresolvableCount + p.pendingCount == p.predictionCount == |p.predictionHashes|
      && p.resolvedCount + p.unresolvableCount == |p.outcomeHashes|
  {
    var profile := BuildProfiles(hash, predictions, outcomes, asOf)[i];
    MembersAreCounted(predictions, asOf, profile.segment);
    var members := Members(Visible(predictions, asOf), profile.segment);
    ProfileCounts(hash, profile.segment, members, OutcomesBy(outcomes, asOf), asOf);
    forall h ensures h in profile.predictionHashes <==>
      exists q :: q in predictions && Counted(q, asOf) && SegmentOf(q) == profile.segment && h == hash(PredictionBody(q))
    {
      HashesOfGroup(hash, Sorted(members, PredictionLe), h);
    }
  }

  /** Evidence that arrives after the cutoff changes no profile. */
  lemma ProfilesAreStable(hash: Hash, predictions: seq<Prediction>, morePredictions: seq<Prediction>,
                          outcomes: seq<Outcome>, moreOutcomes: seq<Outcome>, asOf: int)
    requires forall i :: 0 <= i < |morePredictions| ==> !Counted(morePredictions[i], asOf)
    requires forall i :: 0 <= i < |moreOutcomes| ==> moreOutcomes[i].decidedAt > asOf
    ensures BuildProfiles(hash, predictions + morePredictions, outcomes + moreOutcomes, asOf)
         == BuildProfiles(hash, predictions, outcomes, asOf)
  {
    VisibleGrowth(predictions, morePredictions, asOf);
    OutcomesGrowth(outcomes, moreOutcomes, asOf);
  }

  // ------------------------------------------------------------------ as the source computes it

  /** The per-segment pass: outcomes looked up one prediction at a time. */
  method CollectOutcomes(group: seq<Prediction>, outcomes: map<string, Outcome>)
    returns (pairs: seq<Sample>, finals: seq<Outcome>, unresolved: nat)
    ensures finals == FinalOutcomes(group, outcomes) && pairs == ResolvedPairs(group, outcomes)
    ensures unresolved == |finals| - |pairs|
  {
    pairs, finals, unresolved := [], [], 0;
    var i := 0;
    while i < |group|
      invariant 0 <= i <= |group|
      invariant finals == FinalOutcomes(group[..i], outcomes)
      invariant pairs == ResolvedPairs(group[..i], outcomes)
      invariant unresolved == |finals| - |pairs|
    {
      assert group[..i + 1][..i] == group[..i];
      var id := group[i].predictionId;
      if id in outcomes {
        var outcome := outcomes[id];
        finals := finals + [outcome];
        if outcome.verdict.RESOLVED? {
          pairs := pairs + [(group[i], outcome)];
        } else {
          unresolved := unresolved + 1;
        }
      }
      i := i + 1;
    }
    assert group[..i] == group;
  }

  method MeasureSegment(hash: Hash, s: Segment, members: seq<Prediction>,
                        outcomes: map<string, Outcome>, asOf: int) returns (p: Profile)
    ensures p == BuildProfile(hash, s, members, outcomes, asOf)
  {
    var group := Sorted(members, PredictionLe);
    var pairs, finals, unresolved := CollectOutcomes(group, outcomes);
    var metrics := ComputeProfileMetrics(pairs);
    p := Profile(s, asOf, |group|, |pairs|, unresolved, |group| - |finals|, metrics,
                 PredictionHashes(hash, group), OutcomeHashes(hash, Sorted(finals, OutcomeLe)));
  }

  ghost predicate Grouped(groups: map<Segment, seq<Prediction>>, order: seq<Segment>, counted: seq<Prediction>) {
    && AllSingle(counted) && order == SegmentsOf(counted)
    && (forall s :: s in groups <==> s in order)
    && forall s :: s in groups ==> groups[s] == Members(counted, s)
  }

  lemma GroupOneMore(groups: map<Segment, seq<Prediction>>, order: seq<Segment>, counted: seq<Prediction>, p: Prediction)
    requires Grouped(groups, order, counted) && |p.modelRefs| == 1
    ensures
      var s := SegmentOf(p);
      Grouped(groups[s := (if s in groups then groups[s] else []) + [p]], if s in groups then order else order + [s],
              counted + [p])
  {
    var s, more := SegmentOf(p), counted + [p];
    var after := groups[s := (if s in groups then groups[s] else []) + [p]];
    assert more[..|more| - 1] == counted;
    assert AllSingle(more);
    if s !in groups {
      NoMembers(counted, s);
    }
    forall k | k in after ensures after[k] == Members(more, k) {
      assert k != s ==> k in groups && after[k] == groups[k];
    }
  }

  /** Predictions of the same segment are collected together, segments in order of appearance. */
  method GroupBySegment(counted: seq<Prediction>)
    returns (groups: map<Segment, seq<Prediction>>, order: seq<Segment>)
    requires AllSingle(counted)
    ensures Grouped(groups, order, counted)
  {
    groups, order := map[], [];
    var i := 0;
    while i < |counted|
      invariant 0 <= i <= |counted|
      invariant Grouped(groups, order, counted[..i])
    {
      assert counted[..i + 1] == counted[..i] + [counted[i]];
      GroupOneMore(groups, order, counted[..i], counted[i]);
      var s := SegmentOf(counted[i]);
      if s !in groups {
        groups, order := groups[s := []], order + [s];
      }
      groups := groups[s := groups[s] + [counted[i]]];
      i := i + 1;
    }
    assert counted[..i] == counted;
  }

  method DecidedOutcomes(outcomes: seq<Outcome>, asOf: int) returns (decided: map<string, Outcome>)
    ensures decided == OutcomesBy(outcomes, asOf)
  {
    decided := map[];
    var i := 0;
    while i < |outcomes|
      invariant 0 <= i <= |outcomes| && decided == OutcomesBy(outcomes[..i], asOf)
    {
      assert outcomes[..i + 1][..i] == outcomes[..i];
      if outcomes[i].decidedAt <= asOf {
        decided := decided[outcomes[i].predictionId := outcomes[i]];
      }
      i := i + 1;
    }
    assert outcomes[..i] == outcomes;
  }

  /** The whole build: filter the journals, group by segment, measure segment by segment. */
  method BuildCompetenceProfiles(hash: Hash, predictions: seq<Prediction>, outcomes: seq<Outcome>, asOf: int)
    returns (profiles: seq<Profile>)
    ensures profiles == BuildProfiles(hash, predictions, outcomes, asOf)
  {
    VisibleSingle(predictions, asOf);
    var counted := Visible(predictions, asOf);
    var decided := DecidedOutcomes(outcomes, asOf);
    var groups, order := GroupBySegment(counted);
    var keys := Sorted(order, SegmentLe);
    SortedMembers(order, SegmentLe);
    profiles := MeasureSegments(hash, counted, keys, groups, decided, asOf);
  }

  method MeasureSegments(hash: Hash, counted: seq<Prediction>, keys: seq<Segment>,
                         groups: map<Segment, seq<Prediction>>, decided: map<string, Outcome>, asOf: int)
    returns (profiles: seq<Profile>)
    requires AllSingle(counted)
    requires forall i :: 0 <= i < |keys| ==> keys[i] in groups && groups[keys[i]] == Members(counted, keys[i])
    ensures |profiles| == |keys|
    ensures forall i :: 0 <= i < |keys| ==>
      profiles[i] == BuildProfile(hash, keys[i], Members(counted, keys[i]), decided, asOf)
  {
    profiles := [];
    var i := 0;
    while i < |keys|
      invariant 0 <= i <= |keys| && |profiles| == i
      invariant forall k :: 0 <= k < i ==>
        profiles[k] == BuildProfile(hash, keys[k], Members(counted, keys[k]), decided, asOf)
    {
      var p := MeasureSegment(hash, keys[i], groups[keys[i]], decided, asOf);
      profiles := profiles + [p];
      i := i + 1;
    }
  }

  lemma {:induction false} NoMembers(predictions: seq<Prediction>, s: Segment)
    requires AllSingle(predictions) && s !in SegmentsOf(predictions)
    ensures Members(predictions, s) == []
  {
    if predictions != [] {
      NoMembers(predictions[..|predictions| - 1], s);
    }
  }
}

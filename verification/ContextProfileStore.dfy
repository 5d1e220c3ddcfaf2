/** ModelContextProfileRegistry on its files: artifacts, event lines and the projection. */
module ContextProfileStore {
  import opened Prelude
  import opened ContextProfileRegistry
  import opened ContextProfileOperations

  /** Each durable write spends one unit of the budget; with none left the process stops. */
  class RegistryStore {
    var events: seq<Event>
    var artifacts: map<string, Artifact>
    var state: Projection
    var budget: nat

    function Current(): Store reads this { Store(events, artifacts, state) }

    constructor (s: Store, budget: nat)
      ensures Current() == s && this.budget == budget
    {
      events, artifacts, state := s.events, s.artifacts, s.state;
      this.budget := budget;
    }

    /** The state after as many of the writes as the budget allowed. */
    ghost predicate Reached(start: Store, was: nat, states: seq<Store>, stopped: bool)
      reads this
    {
      && Current() == Final(start, states[..Min(was, |states|)])
      && budget == was - Min(was, |states|) && (stopped <==> was < |states|)
    }

    /** The event line, then the projection. */
    method AppendEvent(e: Event) returns (stopped: bool)
      modifies this
      ensures Reached(old(Current()), old(budget), AppendStates(old(Current()), e), stopped)
    {
      ghost var states := AppendStates(Current(), e);
      if budget == 0 { return true; }
      events, budget := events + [e], budget - 1;
      if budget == 0 {
        assert states[..1][0] == states[0];
        return true;
      }
      var projection := ProjectEvents(events);
      state, budget := projection, budget - 1;
      assert states[..2] == states;
      return false;
    }

    method SaveProjection(projection: Projection) returns (stopped: bool)
      modifies this
      ensures Reached(old(Current()), old(budget), [old(Current()).(state := projection)], stopped)
    {
      if budget == 0 { return true; }
      state, budget := projection, budget - 1;
      return false;
    }

    method KeepArtifact(a: Artifact) returns (stopped: bool)
      modifies this
      ensures Reached(old(Current()), old(budget),
        if a.profileId in old(artifacts) then [] else [old(Current()).(artifacts := old(artifacts)[a.profileId := a])], stopped)
    {
      if a.profileId in artifacts { return false; }
      if budget == 0 { return true; }
      artifacts, budget := artifacts[a.profileId := a], budget - 1;
      return false;
    }

    method Register(hash: RegistryHash, models: Models, p: ContextProfile, refs: seq<string>, at: int)
      returns (result: Result<ProfileRecord, RegistryFault>, stopped: bool)
      modifies this
      ensures
        var run := RegisterRun(hash, old(Current()), models, p, refs, at);
        Reached(old(Current()), old(budget), run.states, stopped) && (!stopped ==> result == run.result)
    {
      stopped := false;
      if !ValidRefs(refs) { return Err(EvidenceRefsInvalid), false; }
      if at < 0 { return Err(NegativeTime), false; }
      if p.modelRef !in models { return Err(ModelUnknown), false; }
      var errors := ValidateEventChain(hash, events);
      if errors != [] { return Err(ChainInvalid), false; }
      var projection := ProjectEvents(events);
      var id := ProfileId(hash, p);
      var existing := FirstRegistered(events, p.modelRef, p.version);
      if existing.Some? {
        FirstIsProjected(events, p.modelRef, p.version);
        var record := projection.profiles[existing.value];
        if record.profileHash != ProfileHash(hash, p) || record.profileId != id { return Err(VersionImmutable), false; }
        if id !in artifacts { return Err(ArtifactMissing), false; }
        result := Ok(record);
        stopped := SaveProjection(projection);
        return;
      }
      var artifact := ArtifactOf(hash, p, models[p.modelRef], at, refs);
      if id in artifacts && artifacts[id] != artifact { return Err(ArtifactConflict), false; }
      var e := NextEvent(hash, events, p.modelRef, at, RegistrationOf(hash, artifact));
      result := Ok(ProjectedAll(events + [e]).profiles[artifact.profileId]);
      stopped := RegisterNew(artifact, e);
    }

    method RegisterNew(artifact: Artifact, e: Event) returns (stopped: bool)
      requires artifact.profileId in artifacts ==> artifacts[artifact.profileId] == artifact
      modifies this
      ensures Reached(old(Current()), old(budget), RegisterStates(old(Current()), artifact, e), stopped)
    {
      ghost var start, was := Current(), budget;
      ghost var kept := start.(artifacts := start.artifacts[artifact.profileId := artifact]);
      ghost var first := if artifact.profileId in artifacts then [] else [kept];
      assert artifact.profileId in artifacts ==> kept == start;
      stopped := KeepArtifact(artifact);
      TwoStages(start, first, AppendStates(kept, e), was);
      if !stopped {
        stopped := AppendEvent(e);
      }
    }

    /** The checks of activate, in their order. */
    method CheckActivation(hash: RegistryHash, models: Models, id: string, refs: seq<string>, at: int)
      returns (check: Result<bool, RegistryFault>)
      ensures check == ActivationCheck(hash, Current(), models, id, refs, at)
    {
      if !ValidRefs(refs) { return Err(EvidenceRefsInvalid); }
      if at < 0 { return Err(NegativeTime); }
      var errors := ValidateEventChain(hash, events);
      if errors != [] { return Err(ChainInvalid); }
      var projection := ProjectEvents(events);
      if id !in projection.profiles { return Err(NotRegistered); }
      var record := projection.profiles[id];
      var current := ActiveOf(projection, record.modelRef);
      if at < record.registeredAt { return Err(PrecedesRegistration); }
      if current.Some? && at < current.value.activatedAt { return Err(TimeMovesBackwards); }
      if current.Some? && current.value.profileId == id {
        return if current.value.evidence == refs then Ok(false) else Err(DifferentEvidence);
      }
      if id !in artifacts { return Err(ArtifactMissing); }
      if record.modelRef !in models || models[record.modelRef] != record.model { return Err(ModelChanged); }
      if ProfileHash(hash, artifacts[id].profile) != record.profileHash { return Err(ProfileHashMismatch); }
      return Ok(true);
    }

    method Activate(hash: RegistryHash, models: Models, id: string, refs: seq<string>, at: int)
      returns (result: Result<ActiveRecord, RegistryFault>, stopped: bool)
      modifies this
      ensures
        var run := ActivateRun(hash, old(Current()), models, id, refs, at);
        Reached(old(Current()), old(budget), run.states, stopped) && (!stopped ==> result == run.result)
    {
      var check := CheckActivation(hash, models, id, refs, at);
      if check.Err? { return Err(check.error), false; }
      var projection := ProjectEvents(events);
      var modelRef := projection.profiles[id].modelRef;
      if !check.value {
        result := Ok(ActiveOf(projection, modelRef).value);
        stopped := SaveProjection(projection);
        return;
      }
      var e := ActivationEvent(hash, Current(), id, refs, at);
      result := Ok(ProjectedAll(events + [e]).active[modelRef]);
      stopped := AppendEvent(e);
    }

    method ActiveProfileAt(hash: RegistryHash, modelRef: string, asOf: int)
      returns (answer: Result<ContextProfile, RegistryFault>)
      ensures answer == ActiveProfile(hash, Current(), modelRef, asOf)
    {
      if asOf < 0 { return Err(NegativeTime); }
      var errors := ValidateEventChain(hash, events);
      if errors != [] { return Err(ChainInvalid); }
      var active := FindActiveId(events, modelRef, asOf);
      if active.None? { return Err(NoActiveProfile); }
      if active.value !in artifacts { return Err(ArtifactMissing); }
      return Ok(artifacts[active.value].profile);
    }
  }

  lemma TwoStages(s: Store, first: seq<Store>, second: seq<Store>, budget: nat)
    ensures
      var states := first + second;
      Final(s, states[..Min(budget, |states|)])
      == if budget < |first| then Final(s, first[..budget])
         else Final(Final(s, first), second[..Min(budget - |first|, |second|)])
    ensures first[..|first|] == first
  {
    if budget < |first| {
      assert (first + second)[..budget] == first[..budget];
    } else {
      var k := Min(budget - |first|, |second|);
      assert (first + second)[..|first| + k] == first + second[..k];
    }
  }
}

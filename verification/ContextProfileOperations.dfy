/** register, activate and active_profile of assembly/context_profiles.py, and exactly when they leave
    the chain valid. */
module ContextProfileOperations {
  import opened Prelude
  import opened ContextProfileRegistry

  datatype Store = Store(events: seq<Event>, artifacts: map<string, Artifact>, state: Projection)

  /** The identities of the registered models, read from the model registry. */
  type Models = map<string, ModelIdentity>

  datatype RegistryFault =
    | EvidenceRefsInvalid | NegativeTime | ModelUnknown | ChainInvalid | VersionImmutable | ArtifactMissing
    | ArtifactConflict | NotRegistered | PrecedesRegistration | TimeMovesBackwards | DifferentEvidence
    | ModelChanged | ProfileHashMismatch | NoActiveProfile

  datatype Run<T> = Run(states: seq<Store>, result: Result<T, RegistryFault>)

  function Final(s: Store, states: seq<Store>): Store { if states == [] then s else states[|states| - 1] }

  function NextEvent(hash: RegistryHash, events: seq<Event>, modelRef: string, at: int, change: Change): Event {
    var previous := if events == [] then "GENESIS" else events[|events| - 1].eventHash;
    var body := EventBody(|events|, modelRef, at, change, previous);
    Event(body, hash(EventContent(body)))
  }

  // ------------------------------------------------------------------ register

  /** The first registration of the model's version, if there is one. */
  function FirstRegistered(events: seq<Event>, modelRef: string, version: string): Option<string> {
    if events == [] then None
    else
      var before, b := FirstRegistered(events[..|events| - 1], modelRef, version), events[|events| - 1].body;
      if before.Some? then before
      else if b.change.Registered? && b.modelRef == modelRef && b.change.version == version then Some(b.change.profileId)
      else None
  }

  function ArtifactOf(hash: RegistryHash, p: ContextProfile, model: ModelIdentity, at: int, refs: seq<string>): Artifact {
    Artifact(ProfileId(hash, p), p, ProfileHash(hash, p), model, at, refs)
  }

  function RegistrationOf(hash: RegistryHash, a: Artifact): Change {
    Registered(a.profileId, a.profile.modelRef, a.profile.version, a.profileHash, hash(ArtifactContent(a)), a.model, a.evidence)
  }

  lemma {:induction false} FirstIsProjected(events: seq<Event>, modelRef: string, version: string)
    ensures FirstRegistered(events, modelRef, version).Some? ==>
      FirstRegistered(events, modelRef, version).value in ProjectedAll(events).profiles
  {
    if events != [] {
      FirstIsProjected(events[..|events| - 1], modelRef, version);
    }
  }

  /** Appending the event, then writing the projection. */
  function AppendStates(s: Store, e: Event): seq<Store> {
    var appended := s.(events := s.events + [e]);
    [appended, appended.(state := ProjectedAll(appended.events))]
  }

  /** The artifact unless it is there already, then the event and the projection. */
  function RegisterStates(s: Store, a: Artifact, e: Event): seq<Store> {
    var kept := s.(artifacts := s.artifacts[a.profileId := a]);
    (if a.profileId in s.artifacts then [] else [kept]) + AppendStates(kept, e)
  }

  function RegisterRun(hash: RegistryHash, s: Store, models: Models, p: ContextProfile, refs: seq<string>, at: int)
    : Run<ProfileRecord>
  {
    if !ValidRefs(refs) then Run([], Err(EvidenceRefsInvalid))
    else if at < 0 then Run([], Err(NegativeTime))
    else if p.modelRef !in models then Run([], Err(ModelUnknown))
    else if ChainErrors(hash, s.events) != [] then Run([], Err(ChainInvalid))
    else
      var projection, id := ProjectedAll(s.events), ProfileId(hash, p);
      var existing := FirstRegistered(s.events, p.modelRef, p.version);
      if existing.Some? then
        FirstIsProjected(s.events, p.modelRef, p.version);
        var record := projection.profiles[existing.value];
        if record.profileHash != ProfileHash(hash, p) || record.profileId != id then Run([], Err(VersionImmutable))
        else if id !in s.artifacts then Run([], Err(ArtifactMissing))
        else Run([s.(state := projection)], Ok(record))
      else
        var artifact := ArtifactOf(hash, p, models[p.modelRef], at, refs);
        if id in s.artifacts && s.artifacts[id] != artifact then Run([], Err(ArtifactConflict))
        else
          var e := NextEvent(hash, s.events, p.modelRef, at, RegistrationOf(hash, artifact));
          Run(RegisterStates(s, artifact, e), Ok(ProjectedAll(s.events + [e]).profiles[id]))
  }

  // ------------------------------------------------------------------ activate

  function ActivationOf(record: ProfileRecord, current: Option<ActiveRecord>, refs: seq<string>): Change {
    Activated(record.profileId, record.profileHash, record.version,
              if current.None? then None else Some(current.value.profileId), refs)
  }

  function ActiveOf(p: Projection, modelRef: string): Option<ActiveRecord> {
    if modelRef in p.active then Some(p.active[modelRef]) else None
  }

  /** What activate checks first: a fault, or whether anything is left to append. */
  function ActivationCheck(hash: RegistryHash, s: Store, models: Models, id: string, refs: seq<string>, at: int)
    : (check: Result<bool, RegistryFault>)
    ensures check.Ok? ==> id in ProjectedAll(s.events).profiles
    ensures check == Ok(false) ==> ActiveOf(ProjectedAll(s.events), ProjectedAll(s.events).profiles[id].modelRef).Some?
  {
    if !ValidRefs(refs) then Err(EvidenceRefsInvalid)
    else if at < 0 then Err(NegativeTime)
    else if ChainErrors(hash, s.events) != [] then Err(ChainInvalid)
    else
      var projection := ProjectedAll(s.events);
      if id !in projection.profiles then Err(NotRegistered)
      else
        var record := projection.profiles[id];
        var current := ActiveOf(projection, record.modelRef);
        if at < record.registeredAt then Err(PrecedesRegistration)
        else if current.Some? && at < current.value.activatedAt then Err(TimeMovesBackwards)
        else if current.Some? && current.value.profileId == id then
          if current.value.evidence == refs then Ok(false) else Err(DifferentEvidence)
        else if id !in s.artifacts then Err(ArtifactMissing)
        else if record.modelRef !in models || models[record.modelRef] != record.model then Err(ModelChanged)
        else if ProfileHash(hash, s.artifacts[id].profile) != record.profileHash then Err(ProfileHashMismatch)
        else Ok(true)
  }

  /** The event that activates a registered profile. */
  function ActivationEvent(hash: RegistryHash, s: Store, id: string, refs: seq<string>, at: int): Event
    requires id in ProjectedAll(s.events).profiles
  {
    var record := ProjectedAll(s.events).profiles[id];
    NextEvent(hash, s.events, record.modelRef, at,
              ActivationOf(record.(profileId := id), ActiveOf(ProjectedAll(s.events), record.modelRef), refs))
  }

  function ActivateRun(hash: RegistryHash, s: Store, models: Models, id: string, refs: seq<string>, at: int)
    : Run<ActiveRecord>
  {
    match ActivationCheck(hash, s, models, id, refs, at)
    case Err(fault) => Run([], Err(fault))
    case Ok(proceed) =>
      var projection := ProjectedAll(s.events);
      var modelRef := projection.profiles[id].modelRef;
      if !proceed then Run([s.(state := projection)], Ok(ActiveOf(projection, modelRef).value))
      else
        var e := ActivationEvent(hash, s, id, refs, at);
        Run(AppendStates(s, e), Ok(ProjectedAll(s.events + [e]).active[modelRef]))
  }

  function ActiveProfile(hash: RegistryHash, s: Store, modelRef: string, asOf: int): Result<ContextProfile, RegistryFault> {
    if asOf < 0 then Err(NegativeTime)
    else if ChainErrors(hash, s.events) != [] then Err(ChainInvalid)
    else match ActiveId(s.events, modelRef, asOf)
      case None => Err(NoActiveProfile)
      case Some(id) => if id in s.artifacts then Ok(s.artifacts[id].profile) else Err(ArtifactMissing)
  }

  // ------------------------------------------------------------------ what the registry keeps

  predicate ValidProfile(p: ContextProfile) { p.modelRef != "" && p.version != "" }

  /** The registration's facts are those of the artifact under its id. */
  ghost predicate GroundedIn(hash: RegistryHash, artifacts: map<string, Artifact>, b: EventBody)
    requires b.change.Registered?
  {
    var r := b.change;
    && r.profileId in artifacts
    && var a := artifacts[r.profileId];
    && r.profileId == ProfileId(hash, a.profile) && r.profileHash == ProfileHash(hash, a.profile)
    && r.payloadModel == b.modelRef == a.profile.modelRef && r.version == a.profile.version && r.model == a.model
    && ValidProfile(a.profile)
  }

  ghost predicate Grounded(hash: RegistryHash, s: Store) {
    forall i :: 0 <= i < |s.events| && s.events[i].body.change.Registered? ==> GroundedIn(hash, s.artifacts, s.events[i].body)
  }

  lemma {:induction false} RegisteredComesFrom(hash: RegistryHash, events: seq<Event>, id: string) returns (i: nat)
    requires id in CheckedAll(hash, events).registered
    ensures i < |events| && events[i].body.change.Registered? && events[i].body.change.profileId == id
    ensures CheckedAll(hash, events).registered[id] == events[i].body.change
  {
    var n := |events| - 1;
    if events[n].body.change.Registered? && events[n].body.change.profileId == id {
      i := n;
    } else {
      i := RegisteredComesFrom(hash, events[..n], id);
    }
  }

  lemma {:induction false} ProjectedComesFrom(events: seq<Event>, id: string) returns (i: nat)
    requires id in ProjectedAll(events).profiles
    ensures i < |events| && events[i].body.change.Registered? && events[i].body.change.profileId == id
    ensures
      var record, b := ProjectedAll(events).profiles[id], events[i].body;
      && record.profileId == id && record.modelRef == b.modelRef && record.version == b.change.version
      && record.profileHash == b.change.profileHash && record.model == b.change.model && record.registeredAt == b.occurredAt
  {
    var n := |events| - 1;
    if events[n].body.change.Registered? && events[n].body.change.profileId == id {
      i := n;
    } else {
      i := ProjectedComesFrom(events[..n], id);
    }
  }

  lemma {:induction false} FirstFindsAny(events: seq<Event>, i: nat)
    requires i < |events| && events[i].body.change.Registered?
    ensures FirstRegistered(events, events[i].body.modelRef, events[i].body.change.version).Some?
  {
    if i < |events| - 1 {
      FirstFindsAny(events[..|events| - 1], i);
    }
  }

  lemma {:induction false} VersionsComeFrom(hash: RegistryHash, events: seq<Event>, modelRef: string, version: string)
    requires (modelRef, version) in CheckedAll(hash, events).versions
    ensures FirstRegistered(events, modelRef, version).Some?
  {
    var n := |events| - 1;
    if (modelRef, version) in CheckedAll(hash, events[..n]).versions {
      VersionsComeFrom(hash, events[..n], modelRef, version);
    }
  }

  lemma {:induction false} PreviousIsLast(hash: RegistryHash, events: seq<Event>)
    requires ValidChain(hash, events)
    ensures CheckedAll(hash, events).previous == (if events == [] then "GENESIS" else events[|events| - 1].eventHash)
  {
    if events != [] {
      var n := |events| - 1;
      assert LinkErrors(hash, CheckedAll(hash, events[..n]), n, events[n]) == [];
    }
  }

  /** Appending to a valid chain: valid again exactly when the new event has no error. */
  lemma {:induction false} AppendChecks(hash: RegistryHash, events: seq<Event>, e: Event)
    requires ValidChain(hash, events)
    ensures ValidChain(hash, events + [e]) <==> EventErrors(hash, CheckedAll(hash, events), |events|, e) == []
  {
    assert (events + [e])[..|events|] == events;
  }

  ghost predicate InOrder(events: seq<Event>, modelRef: string, at: int) {
    LastTimeOf(events, modelRef).None? || LastTimeOf(events, modelRef).value <= at
  }

  lemma {:induction false} LinkHolds(hash: RegistryHash, events: seq<Event>, modelRef: string, at: int, change: Change)
    requires ValidChain(hash, events)
    ensures LinkErrors(hash, CheckedAll(hash, events), |events|, NextEvent(hash, events, modelRef, at, change)) == []
  {
    PreviousIsLast(hash, events);
  }

  lemma TimeHolds(c: Checks, at: nat, b: EventBody)
    requires b.modelRef != "" && b.occurredAt >= 0
    ensures TimeErrors(c, at, b) == [] <==>
      TimeIn(c.lastTime, b.modelRef).None? || TimeIn(c.lastTime, b.modelRef).value <= b.occurredAt
  {
  }

  /** A chain stays valid under a new event whose facts are right exactly when its time is not before
      the model's last event. */
  lemma {:induction false} NextEventChecks(hash: RegistryHash, events: seq<Event>, modelRef: string, at: int, change: Change)
    requires ValidChain(hash, events) && modelRef != "" && at >= 0
    requires
      var c, b := CheckedAll(hash, events), NextEvent(hash, events, modelRef, at, change).body;
      (if change.Registered? then RegistrationErrors(c, |events|, b) else ActivationErrors(c, |events|, b)) == []
    ensures ValidChain(hash, events + [NextEvent(hash, events, modelRef, at, change)]) <==> InOrder(events, modelRef, at)
  {
    var c, e := CheckedAll(hash, events), NextEvent(hash, events, modelRef, at, change);
    LinkHolds(hash, events, modelRef, at, change);
    TimeHolds(c, |events|, e.body);
    ValidChainIsOrdered(hash, events);
    assert TimeIn(c.lastTime, modelRef) == LastTimeOf(events, modelRef);
    AppendChecks(hash, events, e);
  }

  /** A profile's name is new when its version is: the artifact under a registered name is the one that was
      registered, and register goes on only over that artifact or none. No property of the hash is needed. */
  lemma {:induction false} NameIsNew(hash: RegistryHash, s: Store, a: Artifact)
    requires Grounded(hash, s) && (a.profileId in s.artifacts ==> s.artifacts[a.profileId] == a)
    requires FirstRegistered(s.events, a.profile.modelRef, a.profile.version).None?
    ensures a.profileId !in CheckedAll(hash, s.events).registered
  {
    if a.profileId in CheckedAll(hash, s.events).registered {
      var i := RegisteredComesFrom(hash, s.events, a.profileId);
      assert GroundedIn(hash, s.artifacts, s.events[i].body);
      FirstFindsAny(s.events, i);
      assert false;
    }
  }

  lemma {:induction false} RegistrationIsNew(hash: RegistryHash, s: Store, a: Artifact, at: int)
    requires Grounded(hash, s) && ValidChain(hash, s.events)
    requires ValidProfile(a.profile) && ValidRefs(a.evidence)
    requires a.profileId == ProfileId(hash, a.profile) && a.profileHash == ProfileHash(hash, a.profile)
    requires a.profileId in s.artifacts ==> s.artifacts[a.profileId] == a
    requires FirstRegistered(s.events, a.profile.modelRef, a.profile.version).None?
    ensures
      var b := NextEvent(hash, s.events, a.profile.modelRef, at, RegistrationOf(hash, a)).body;
      RegistrationErrors(CheckedAll(hash, s.events), |s.events|, b) == []
  {
    var c, p := CheckedAll(hash, s.events), a.profile;
    NameIsNew(hash, s, a);
    if (p.modelRef, p.version) in c.versions {
      VersionsComeFrom(hash, s.events, p.modelRef, p.version);
    }
  }

  lemma GroundedAfter(hash: RegistryHash, s: Store, a: Artifact, e: Event)
    requires Grounded(hash, s) && (a.profileId in s.artifacts ==> s.artifacts[a.profileId] == a)
    requires e.body.change.Registered? ==> GroundedIn(hash, s.artifacts[a.profileId := a], e.body)
    ensures Grounded(hash, s.(artifacts := s.artifacts[a.profileId := a], events := s.events + [e]))
  {
    var after := s.(artifacts := s.artifacts[a.profileId := a], events := s.events + [e]);
    forall i | 0 <= i < |after.events| && after.events[i].body.change.Registered?
      ensures GroundedIn(hash, after.artifacts, after.events[i].body)
    {
      if i < |s.events| {
        assert after.events[i] == s.events[i];
        assert GroundedIn(hash, s.artifacts, s.events[i].body);
      }
    }
  }

  lemma StagedEnd(s: Store, a: Artifact, e: Event)
    ensures Final(s, RegisterStates(s, a, e))
      == s.(artifacts := s.artifacts[a.profileId := a], events := s.events + [e], state := ProjectedAll(s.events + [e]))
  {
  }

  lemma RegisterIsStaged(hash: RegistryHash, s: Store, models: Models, p: ContextProfile, refs: seq<string>, at: int)
    requires RegisterRun(hash, s, models, p, refs, at).result.Ok?
    requires FirstRegistered(s.events, p.modelRef, p.version).None?
    ensures
      && ValidRefs(refs) && at >= 0 && p.modelRef in models && ValidChain(hash, s.events)
      && var a := ArtifactOf(hash, p, models[p.modelRef], at, refs);
      var e := NextEvent(hash, s.events, p.modelRef, at, RegistrationOf(hash, a));
      && RegisterRun(hash, s, models, p, refs, at)
         == Run(RegisterStates(s, a, e), Ok(ProjectedAll(s.events + [e]).profiles[a.profileId]))
      && (a.profileId in s.artifacts ==> s.artifacts[a.profileId] == a)
  {
  }

  /** What register appends when the version is new. */
  lemma RegisterAppends(hash: RegistryHash, s: Store, models: Models, p: ContextProfile, refs: seq<string>, at: int)
    requires RegisterRun(hash, s, models, p, refs, at).result.Ok?
    requires FirstRegistered(s.events, p.modelRef, p.version).None?
    ensures
      var a := ArtifactOf(hash, p, models[p.modelRef], at, refs);
      var e := NextEvent(hash, s.events, p.modelRef, at, RegistrationOf(hash, a));
      var after := Final(s, RegisterRun(hash, s, models, p, refs, at).states);
      && after.events == s.events + [e] && after.artifacts == s.artifacts[a.profileId := a]
      && after.state == ProjectedAll(after.events)
      && (a.profileId in s.artifacts ==> s.artifacts[a.profileId] == a)
  {
    RegisterIsStaged(hash, s, models, p, refs, at);
    var a := ArtifactOf(hash, p, models[p.modelRef], at, refs);
    StagedEnd(s, a, NextEvent(hash, s.events, p.modelRef, at, RegistrationOf(hash, a)));
  }

  /** register keeps the chain valid exactly when its time is not before the model's last event. The
      code does not look: an earlier time is accepted and breaks the chain. */
  lemma RegisterKeepsChain(hash: RegistryHash, s: Store, models: Models, p: ContextProfile, refs: seq<string>, at: int)
    requires Grounded(hash, s) && ValidProfile(p)
    requires RegisterRun(hash, s, models, p, refs, at).result.Ok?
    requires FirstRegistered(s.events, p.modelRef, p.version).None?
    ensures
      var after := Final(s, RegisterRun(hash, s, models, p, refs, at).states);
      && (ValidChain(hash, after.events) <==> InOrder(s.events, p.modelRef, at))
      && Grounded(hash, after) && after.state == ProjectedAll(after.events)
  {
    var a := ArtifactOf(hash, p, models[p.modelRef], at, refs);
    var change := RegistrationOf(hash, a);
    RegisterAppends(hash, s, models, p, refs, at);
    RegistrationIsNew(hash, s, a, at);
    NextEventChecks(hash, s.events, p.modelRef, at, change);
    var e := NextEvent(hash, s.events, p.modelRef, at, change);
    GroundedAfter(hash, s, a, e);
    assert Final(s, RegisterRun(hash, s, models, p, refs, at).states)
        == s.(artifacts := s.artifacts[a.profileId := a], events := s.events + [e], state := ProjectedAll(s.events + [e]));
  }

  /** Registering the same profile again changes nothing but rewrites the projection, at any time and with
      any evidence, and returns the same record. */
  lemma RegisterIsIdempotent(hash: RegistryHash, s: Store, models: Models, p: ContextProfile,
                             refs: seq<string>, at: int, otherRefs: seq<string>, otherAt: int)
    requires RegisterRun(hash, s, models, p, refs, at).result.Ok?
    requires FirstRegistered(s.events, p.modelRef, p.version).None?
    requires ValidRefs(otherRefs) && otherAt >= 0
    ensures
      var run := RegisterRun(hash, s, models, p, refs, at);
      var after := Final(s, run.states);
      ValidChain(hash, after.events) ==>
        RegisterRun(hash, after, models, p, otherRefs, otherAt) == Run([after], run.result)
  {
    RegisterAppends(hash, s, models, p, refs, at);
    var a := ArtifactOf(hash, p, models[p.modelRef], at, refs);
    var e := NextEvent(hash, s.events, p.modelRef, at, RegistrationOf(hash, a));
    assert (s.events + [e])[..|s.events + [e]| - 1] == s.events;
    assert FirstRegistered(s.events + [e], p.modelRef, p.version) == Some(a.profileId);
  }

  /** What a stop right after the artifact leaves. */
  function ArtifactOnly(hash: RegistryHash, s: Store, p: ContextProfile, model: ModelIdentity, at: int, refs: seq<string>): Store {
    s.(artifacts := s.artifacts[ProfileId(hash, p) := ArtifactOf(hash, p, model, at, refs)])
  }

  lemma StoppedAtArtifact(hash: RegistryHash, s: Store, models: Models, p: ContextProfile, refs: seq<string>, at: int)
    requires RegisterRun(hash, s, models, p, refs, at).result.Ok?
    requires FirstRegistered(s.events, p.modelRef, p.version).None? && ProfileId(hash, p) !in s.artifacts
    ensures RegisterRun(hash, s, models, p, refs, at).states[0] == ArtifactOnly(hash, s, p, models[p.modelRef], at, refs)
  {
  }

  /** A registration stopped between artifact and event can be finished only with the time and the
      evidence it was begun with: anything else conflicts with the artifact for good. */
  lemma InterruptedRegistration(hash: RegistryHash, s: Store, models: Models, p: ContextProfile,
                                refs: seq<string>, at: int, otherRefs: seq<string>, otherAt: int)
    requires p.modelRef in models && ValidChain(hash, s.events) && FirstRegistered(s.events, p.modelRef, p.version).None?
    requires ValidRefs(otherRefs) && otherAt >= 0
    ensures
      var stopped := ArtifactOnly(hash, s, p, models[p.modelRef], at, refs);
      RegisterRun(hash, stopped, models, p, otherRefs, otherAt).result.Ok? <==> otherRefs == refs && otherAt == at
  {
  }

  lemma FinishedRegistration(hash: RegistryHash, s: Store, models: Models, p: ContextProfile, refs: seq<string>, at: int)
    requires RegisterRun(hash, s, models, p, refs, at).result.Ok?
    requires FirstRegistered(s.events, p.modelRef, p.version).None?
    ensures
      var stopped := ArtifactOnly(hash, s, p, models[p.modelRef], at, refs);
      Final(stopped, RegisterRun(hash, stopped, models, p, refs, at).states)
      == Final(s, RegisterRun(hash, s, models, p, refs, at).states)
  {
    var stopped := ArtifactOnly(hash, s, p, models[p.modelRef], at, refs);
    var a := ArtifactOf(hash, p, models[p.modelRef], at, refs);
    assert stopped.artifacts[a.profileId := a] == stopped.artifacts == s.artifacts[a.profileId := a];
    RegisterAppends(hash, s, models, p, refs, at);
    RegisterAppends(hash, stopped, models, p, refs, at);
  }

  // ------------------------------------------------------------------ activation and the chain

  /** Two states mean that every check passed and the event was appended. */
  lemma {:induction false} ActivateAppends(hash: RegistryHash, s: Store, models: Models, id: string, refs: seq<string>, at: int)
    requires |ActivateRun(hash, s, models, id, refs, at).states| == 2
    ensures ActivationCheck(hash, s, models, id, refs, at) == Ok(true)
    ensures
      var e := ActivationEvent(hash, s, id, refs, at);
      Final(s, ActivateRun(hash, s, models, id, refs, at).states)
      == s.(events := s.events + [e], state := ProjectedAll(s.events + [e]))
  {
  }

  lemma {:induction false} CheckedActivation(hash: RegistryHash, s: Store, models: Models, id: string, refs: seq<string>, at: int)
    requires ActivationCheck(hash, s, models, id, refs, at).Ok?
    ensures ValidRefs(refs) && at >= 0 && ValidChain(hash, s.events)
  {
  }

  lemma {:induction false} ActivationIsRight(hash: RegistryHash, s: Store, id: string, refs: seq<string>, at: int)
    requires Grounded(hash, s) && ValidChain(hash, s.events) && id in ProjectedAll(s.events).profiles && ValidRefs(refs)
    ensures
      var b := ActivationEvent(hash, s, id, refs, at).body;
      ActivationErrors(CheckedAll(hash, s.events), |s.events|, b) == [] && b.modelRef != ""
  {
    var c := CheckedAll(hash, s.events);
    FoldsAgree(hash, s.events);
    var i := RegisteredComesFrom(hash, s.events, id);
    var j := ProjectedComesFrom(s.events, id);
    assert GroundedIn(hash, s.artifacts, s.events[i].body) && GroundedIn(hash, s.artifacts, s.events[j].body);
  }

  /** activate keeps the chain valid exactly when its time is not before the model's last event: looking
      at the registration and the current activation is not enough. */
  lemma ActivateKeepsChain(hash: RegistryHash, s: Store, models: Models, id: string, refs: seq<string>, at: int)
    requires Grounded(hash, s)
    requires ActivateRun(hash, s, models, id, refs, at).result.Ok? && |ActivateRun(hash, s, models, id, refs, at).states| == 2
    ensures id in ProjectedAll(s.events).profiles
    ensures
      var after := Final(s, ActivateRun(hash, s, models, id, refs, at).states);
      && (ValidChain(hash, after.events) <==> InOrder(s.events, ProjectedAll(s.events).profiles[id].modelRef, at))
      && Grounded(hash, after) && after.state == ProjectedAll(after.events)
  {
    ActivateAppends(hash, s, models, id, refs, at);
    CheckedActivation(hash, s, models, id, refs, at);
    ActivationIsRight(hash, s, id, refs, at);
    var e := ActivationEvent(hash, s, id, refs, at);
    NextEventChecks(hash, s.events, e.body.modelRef, at, e.body.change);
    ActivatedStaysGrounded(hash, s, e);
  }

  lemma ActivatedStaysGrounded(hash: RegistryHash, s: Store, e: Event)
    requires Grounded(hash, s) && e.body.change.Activated?
    ensures Grounded(hash, s.(events := s.events + [e], state := ProjectedAll(s.events + [e])))
  {
    forall i | 0 <= i < |s.events + [e]| && (s.events + [e])[i].body.change.Registered?
      ensures GroundedIn(hash, s.artifacts, (s.events + [e])[i].body)
    {
      assert (s.events + [e])[i] == s.events[i];
    }
  }

  // ------------------------------------------------------------------ backdated calls

  lemma {:induction false} LateEventBreaks(hash: RegistryHash, events: seq<Event>, modelRef: string, at: int, change: Change)
    requires ValidChain(hash, events) && !InOrder(events, modelRef, at)
    ensures !ValidChain(hash, events + [NextEvent(hash, events, modelRef, at, change)])
  {
    var c, e := CheckedAll(hash, events), NextEvent(hash, events, modelRef, at, change);
    ValidChainIsOrdered(hash, events);
    assert TimeIn(c.lastTime, modelRef) == LastTimeOf(events, modelRef);
    AppendChecks(hash, events, e);
    if modelRef != "" && at >= 0 {
      TimeHolds(c, |events|, e.body);
    }
    assert TimeErrors(c, |events|, e.body) != [];
  }

  lemma {:induction false} RegisterSucceeds(hash: RegistryHash, s: Store, models: Models, p: ContextProfile, refs: seq<string>, at: int)
    requires ValidChain(hash, s.events) && ValidRefs(refs) && at >= 0 && p.modelRef in models
    requires FirstRegistered(s.events, p.modelRef, p.version).None? && ProfileId(hash, p) !in s.artifacts
    ensures RegisterRun(hash, s, models, p, refs, at).result.Ok?
  {
  }

  /** A registration before the model's last event returns normally and breaks the chain. */
  lemma {:induction false} BackdatedRegistration(hash: RegistryHash, s: Store, models: Models, p: ContextProfile,
                                                 refs: seq<string>, at: int)
    requires ValidChain(hash, s.events) && ValidRefs(refs) && at >= 0 && p.modelRef in models
    requires FirstRegistered(s.events, p.modelRef, p.version).None? && ProfileId(hash, p) !in s.artifacts
    requires !InOrder(s.events, p.modelRef, at)
    ensures RegisterRun(hash, s, models, p, refs, at).result.Ok?
    ensures !ValidChain(hash, Final(s, RegisterRun(hash, s, models, p, refs, at).states).events)
  {
    RegisterSucceeds(hash, s, models, p, refs, at);
    RegisterAppends(hash, s, models, p, refs, at);
    LateEventBreaks(hash, s.events, p.modelRef, at, RegistrationOf(hash, ArtifactOf(hash, p, models[p.modelRef], at, refs)));
  }

  const EMPTY_STORE := Store([], map[], EMPTY_PROJECTION)

  /** The store after the first registration of all. */
  lemma {:induction false} FirstRegistration(hash: RegistryHash, models: Models, p: ContextProfile, refs: seq<string>, at: int)
    requires ValidProfile(p) && ValidRefs(refs) && at >= 0 && p.modelRef in models
    ensures RegisterRun(hash, EMPTY_STORE, models, p, refs, at).result.Ok?
    ensures
      var after := Final(EMPTY_STORE, RegisterRun(hash, EMPTY_STORE, models, p, refs, at).states);
      var a := ArtifactOf(hash, p, models[p.modelRef], at, refs);
      && after.events == [NextEvent(hash, [], p.modelRef, at, RegistrationOf(hash, a))]
      && after.artifacts == map[a.profileId := a] && after.state == ProjectedAll(after.events)
      && Grounded(hash, after) && ValidChain(hash, after.events)
      && LastTimeOf(after.events, p.modelRef) == Some(at)
  {
    RegisterSucceeds(hash, EMPTY_STORE, models, p, refs, at);
    RegisterAppends(hash, EMPTY_STORE, models, p, refs, at);
    RegisterKeepsChain(hash, EMPTY_STORE, models, p, refs, at);
    var after := Final(EMPTY_STORE, RegisterRun(hash, EMPTY_STORE, models, p, refs, at).states);
    assert after.events[..0] == [];
    var a := ArtifactOf(hash, p, models[p.modelRef], at, refs);
    assert EMPTY_STORE.artifacts[a.profileId := a] == map[a.profileId := a];
  }

  /** From the empty registry: one version registered, then another of the same model at an earlier time.
      Both calls return normally; the chain is broken. */
  lemma {:induction false} BackdatedRegistrationHappens(hash: RegistryHash, models: Models, p: ContextProfile, q: ContextProfile,
                                                        refs: seq<string>, first: int, second: int)
    requires ValidProfile(p) && ValidProfile(q) && p.modelRef == q.modelRef && p.version != q.version
    requires ProfileId(hash, p) != ProfileId(hash, q) && ValidRefs(refs) && p.modelRef in models && 0 <= second < first
    ensures
      var s := Final(EMPTY_STORE, RegisterRun(hash, EMPTY_STORE, models, p, refs, first).states);
      && RegisterRun(hash, EMPTY_STORE, models, p, refs, first).result.Ok?
      && RegisterRun(hash, s, models, q, refs, second).result.Ok?
      && !ValidChain(hash, Final(s, RegisterRun(hash, s, models, q, refs, second).states).events)
  {
    FirstRegistration(hash, models, p, refs, first);
    var s := Final(EMPTY_STORE, RegisterRun(hash, EMPTY_STORE, models, p, refs, first).states);
    assert s.events[..0] == [];
    assert FirstRegistered(s.events, q.modelRef, q.version).None?;
    BackdatedRegistration(hash, s, models, q, refs, second);
  }

  /** An activation that would have been in order stays possible after another version of the model was
      registered at a later time; it then returns normally and breaks the chain. */
  lemma {:induction false} BackdatedActivation(hash: RegistryHash, s: Store, models: Models, id: string, refs: seq<string>, at: int,
                                               q: ContextProfile, otherRefs: seq<string>, later: int)
    requires Grounded(hash, s) && ValidProfile(q) && at < later
    requires ActivateRun(hash, s, models, id, refs, at).result.Ok? && |ActivateRun(hash, s, models, id, refs, at).states| == 2
    requires id in ProjectedAll(s.events).profiles && ProjectedAll(s.events).profiles[id].modelRef == q.modelRef
    requires RegisterRun(hash, s, models, q, otherRefs, later).result.Ok?
    requires FirstRegistered(s.events, q.modelRef, q.version).None? && InOrder(s.events, q.modelRef, later)
    ensures
      var after := Final(s, RegisterRun(hash, s, models, q, otherRefs, later).states);
      && ValidChain(hash, after.events)
      && ActivateRun(hash, after, models, id, refs, at).result.Ok?
      && !ValidChain(hash, Final(after, ActivateRun(hash, after, models, id, refs, at).states).events)
  {
    var after := Final(s, RegisterRun(hash, s, models, q, otherRefs, later).states);
    RegisterKeepsChain(hash, s, models, q, otherRefs, later);
    RegistrationLeavesOthers(hash, s, models, q, otherRefs, later, id);
    ActivateAppends(hash, s, models, id, refs, at);
    CheckStays(hash, s, after, models, id, refs, at);
    CheckedProceeds(hash, after, models, id, refs, at);
    ActivateAppends(hash, after, models, id, refs, at);
    var e := ActivationEvent(hash, after, id, refs, at);
    LateEventBreaks(hash, after.events, e.body.modelRef, at, e.body.change);
  }

  /** A registration leaves the records of other names, all activations and their artifacts as they are. */
  lemma {:induction false} RegistrationLeavesOthers(hash: RegistryHash, s: Store, models: Models, q: ContextProfile,
                                                    refs: seq<string>, later: int, id: string)
    requires Grounded(hash, s) && RegisterRun(hash, s, models, q, refs, later).result.Ok?
    requires FirstRegistered(s.events, q.modelRef, q.version).None? && id in ProjectedAll(s.events).profiles
    ensures
      var after := Final(s, RegisterRun(hash, s, models, q, refs, later).states);
      var was, now := ProjectedAll(s.events), ProjectedAll(after.events);
      && id in now.profiles && now.profiles[id] == was.profiles[id] && now.active == was.active
      && (id in s.artifacts ==> id in after.artifacts && after.artifacts[id] == s.artifacts[id])
      && LastTimeOf(after.events, q.modelRef) == Some(later)
  {
    RegisterAppends(hash, s, models, q, refs, later);
    RegisterIsStaged(hash, s, models, q, refs, later);
    var a := ArtifactOf(hash, q, models[q.modelRef], later, refs);
    NameIsNew(hash, s, a);
    FoldsAgree(hash, s.events);
    var events := s.events + [NextEvent(hash, s.events, q.modelRef, later, RegistrationOf(hash, a))];
    assert events[..|events| - 1] == s.events;
  }

  lemma {:induction false} CheckStays(hash: RegistryHash, s: Store, after: Store, models: Models, id: string,
                                      refs: seq<string>, at: int)
    requires ActivationCheck(hash, s, models, id, refs, at) == Ok(true) && ValidChain(hash, after.events)
    requires
      var was, now := ProjectedAll(s.events), ProjectedAll(after.events);
      && id in now.profiles && now.profiles[id] == was.profiles[id] && now.active == was.active
      && (id in s.artifacts ==> id in after.artifacts && after.artifacts[id] == s.artifacts[id])
    ensures ActivationCheck(hash, after, models, id, refs, at) == Ok(true)
  {
  }

  lemma {:induction false} CheckedProceeds(hash: RegistryHash, s: Store, models: Models, id: string, refs: seq<string>, at: int)
    requires ActivationCheck(hash, s, models, id, refs, at) == Ok(true)
    ensures ActivateRun(hash, s, models, id, refs, at).result.Ok? && |ActivateRun(hash, s, models, id, refs, at).states| == 2
  {
  }

  /** From the empty registry: a version registered at 0, another at 2, the first activated at 1. All three
      calls return normally; the chain is broken. */
  lemma {:induction false} BackdatedActivationHappens(hash: RegistryHash, models: Models, p: ContextProfile, q: ContextProfile,
                                                      refs: seq<string>)
    requires ValidProfile(p) && ValidProfile(q) && p.modelRef == q.modelRef && p.version != q.version
    requires ProfileId(hash, p) != ProfileId(hash, q) && ValidRefs(refs) && p.modelRef in models
    ensures
      var s := Final(EMPTY_STORE, RegisterRun(hash, EMPTY_STORE, models, p, refs, 0).states);
      var t := Final(s, RegisterRun(hash, s, models, q, refs, 2).states);
      && RegisterRun(hash, EMPTY_STORE, models, p, refs, 0).result.Ok?
      && RegisterRun(hash, s, models, q, refs, 2).result.Ok? && ValidChain(hash, t.events)
      && ActivateRun(hash, t, models, ProfileId(hash, p), refs, 1).result.Ok?
      && !ValidChain(hash, Final(t, ActivateRun(hash, t, models, ProfileId(hash, p), refs, 1).states).events)
  {
    FirstRegistration(hash, models, p, refs, 0);
    var s := Final(EMPTY_STORE, RegisterRun(hash, EMPTY_STORE, models, p, refs, 0).states);
    assert s.events[..0] == [];
    assert FirstRegistered(s.events, q.modelRef, q.version).None?;
    RegisterSucceeds(hash, s, models, q, refs, 2);
    FirstActivation(hash, s, models, p, refs);
    BackdatedActivation(hash, s, models, ProfileId(hash, p), refs, 1, q, refs, 2);
  }

  lemma {:induction false} FirstActivation(hash: RegistryHash, s: Store, models: Models, p: ContextProfile, refs: seq<string>)
    requires ValidProfile(p) && ValidRefs(refs) && p.modelRef in models && ValidChain(hash, s.events)
    requires
      var a := ArtifactOf(hash, p, models[p.modelRef], 0, refs);
      && s.events == [NextEvent(hash, [], p.modelRef, 0, RegistrationOf(hash, a))] && s.artifacts == map[a.profileId := a]
    ensures
      var run := ActivateRun(hash, s, models, ProfileId(hash, p), refs, 1);
      && run.result.Ok? && |run.states| == 2
      && ProfileId(hash, p) in ProjectedAll(s.events).profiles
      && ProjectedAll(s.events).profiles[ProfileId(hash, p)].modelRef == p.modelRef
  {
    assert ProjectedAll(s.events) == Projected(EMPTY_PROJECTION, s.events[0]) by {
      assert s.events[..0] == [];
    }
    CheckedProceeds(hash, s, models, ProfileId(hash, p), refs, 1);
  }

  /** A broken chain stays broken whatever is appended, and every operation refuses to go on. */
  lemma BrokenChainBlocks(hash: RegistryHash, s: Store, more: seq<Event>, models: Models, p: ContextProfile, id: string,
                          refs: seq<string>, at: int)
    requires !ValidChain(hash, s.events) && ValidRefs(refs) && at >= 0 && p.modelRef in models
    ensures
      var later := s.(events := s.events + more);
      && !ValidChain(hash, later.events)
      && RegisterRun(hash, later, models, p, refs, at) == Run([], Err(ChainInvalid))
      && ActivateRun(hash, later, models, id, refs, at) == Run([], Err(ChainInvalid))
      && ActiveProfile(hash, later, p.modelRef, at) == Err(ChainInvalid)
  {
    ErrorsStay(hash, s.events + more, |s.events|);
    assert (s.events + more)[..|s.events|] == s.events;
  }

  lemma {:induction false} ActiveWasActivated(events: seq<Event>, modelRef: string, asOf: int) returns (i: nat)
    requires ActiveId(events, modelRef, asOf).Some?
    ensures i < |events| && events[i].body.modelRef == modelRef && events[i].body.occurredAt <= asOf
    ensures events[i].body.change.Activated? && ActiveId(events, modelRef, asOf) == Some(events[i].body.change.profileId)
  {
    var n, b := |events| - 1, events[|events| - 1].body;
    if b.occurredAt <= asOf && b.modelRef == modelRef && b.change.Activated? {
      i := n;
    } else {
      i := ActiveWasActivated(events[..n], modelRef, asOf);
    }
  }

  /** On a valid chain whose registrations are grounded, active_profile answers exactly when the model had an
      activation by the time, and what it answers is a profile of that model. */
  lemma {:induction false} ActiveProfileAnswers(hash: RegistryHash, s: Store, modelRef: string, asOf: int)
    requires Grounded(hash, s) && ValidChain(hash, s.events) && asOf >= 0
    ensures
      var answer := ActiveProfile(hash, s, modelRef, asOf);
      && (answer.Ok? <==> ActiveId(s.events, modelRef, asOf).Some?)
      && (answer.Ok? ==> answer.value.modelRef == modelRef
                         && ActiveId(s.events, modelRef, asOf) == Some(ProfileId(hash, answer.value)))
  {
    if ActiveId(s.events, modelRef, asOf).Some? {
      var i := ActiveWasActivated(s.events, modelRef, asOf);
      ActivatedIsRegistered(hash, s.events, i);
      var j := RegisteredComesFrom(hash, s.events[..i], s.events[i].body.change.profileId);
      assert s.events[..i][j] == s.events[j];
      assert GroundedIn(hash, s.artifacts, s.events[j].body);
    }
  }

  /** An activation in a valid chain names a profile registered before it, for the same model. */
  lemma ActivatedIsRegistered(hash: RegistryHash, events: seq<Event>, i: nat)
    requires ValidChain(hash, events) && i < |events| && events[i].body.change.Activated?
    ensures
      var registered, a := CheckedAll(hash, events[..i]).registered, events[i].body.change;
      && a.profileId in registered
      && (registered[a.profileId].Registered? ==> registered[a.profileId].payloadModel == events[i].body.modelRef)
  {
    ErrorsStay(hash, events, i + 1);
    assert events[..i + 1][..i] == events[..i] && events[..i + 1][i] == events[i];
    assert ActivationErrors(CheckedAll(hash, events[..i]), i, events[i].body) == [];
  }

  // ------------------------------------------------------------------ whole runs

  datatype Call =
    | Register(profile: ContextProfile, refs: seq<string>, at: int)
    | Activate(profileId: string, refs: seq<string>, at: int)

  /** One call, the models it met, and after how many durable writes it was stopped. */
  datatype Entry = Entry(call: Call, models: Models, writes: nat)

  function StatesOf(hash: RegistryHash, s: Store, e: Entry): seq<Store> {
    match e.call
    case Register(p, refs, at) => RegisterRun(hash, s, e.models, p, refs, at).states
    case Activate(id, refs, at) => ActivateRun(hash, s, e.models, id, refs, at).states
  }

  function After(hash: RegistryHash, s: Store, e: Entry): Store {
    var states := StatesOf(hash, s, e);
    Final(s, states[..Min(e.writes, |states|)])
  }

  function Along(next: (Store, Entry) -> Store, s: Store, history: seq<Entry>): Store {
    if history == [] then s else next(Along(next, s, history[..|history| - 1]), history[|history| - 1])
  }

  function NextOf(hash: RegistryHash): (Store, Entry) -> Store { (s, e) => After(hash, s, e) }

  function StoreAfter(hash: RegistryHash, s: Store, history: seq<Entry>): Store { Along(NextOf(hash), s, history) }

  /** The model a call concerns; for an activation of an unknown name there is none, and none is looked at. */
  function ModelOf(s: Store, call: Call): string {
    match call
    case Register(p, _, _) => p.modelRef
    case Activate(id, _, _) => var profiles := ProjectedAll(s.events).profiles; if id in profiles then profiles[id].modelRef else ""
  }

  /** The time a caller has to keep to: not before the last event of the model concerned. */
  ghost predicate Timely(s: Store, call: Call) { InOrder(s.events, ModelOf(s, call), call.at) }

  /** Calls are made with profiles that their constructor lets through. */
  ghost predicate WellMade(call: Call) { call.Register? ==> ValidProfile(call.profile) }

  ghost predicate Healthy(hash: RegistryHash, s: Store) { Grounded(hash, s) && ValidChain(hash, s.events) }

  lemma MoreArtifactsStayGrounded(hash: RegistryHash, s: Store, a: Artifact)
    requires Grounded(hash, s) && a.profileId !in s.artifacts
    ensures Grounded(hash, s.(artifacts := s.artifacts[a.profileId := a]))
  {
    var after := s.(artifacts := s.artifacts[a.profileId := a]);
    forall i | 0 <= i < |s.events| && s.events[i].body.change.Registered?
      ensures GroundedIn(hash, after.artifacts, after.events[i].body)
    {
      assert GroundedIn(hash, s.artifacts, s.events[i].body);
    }
  }

  lemma SameEventsStayHealthy(hash: RegistryHash, a: Store, b: Store)
    requires Healthy(hash, a) && b.events == a.events && b.artifacts == a.artifacts
    ensures Healthy(hash, b)
  {
    forall i | 0 <= i < |b.events| && b.events[i].body.change.Registered?
      ensures GroundedIn(hash, b.artifacts, b.events[i].body)
    {
      assert GroundedIn(hash, a.artifacts, a.events[i].body);
    }
  }

  lemma WritesMeanSuccess(hash: RegistryHash, s: Store, models: Models, p: ContextProfile, refs: seq<string>, at: int)
    requires RegisterRun(hash, s, models, p, refs, at).states != []
    ensures RegisterRun(hash, s, models, p, refs, at).result.Ok?
    ensures FirstRegistered(s.events, p.modelRef, p.version).Some? ==>
      RegisterRun(hash, s, models, p, refs, at).states == [s.(state := ProjectedAll(s.events))]
    ensures FirstRegistered(s.events, p.modelRef, p.version).None? ==>
      p.modelRef in models
      && var a := ArtifactOf(hash, p, models[p.modelRef], at, refs);
      RegisterRun(hash, s, models, p, refs, at).states
      == RegisterStates(s, a, NextEvent(hash, s.events, p.modelRef, at, RegistrationOf(hash, a)))
  {
  }

  lemma StagedShape(s: Store, a: Artifact, e: Event, i: nat)
    requires i < |RegisterStates(s, a, e)|
    ensures
      var here, last := RegisterStates(s, a, e)[i], Final(s, RegisterStates(s, a, e));
      || (here.events == last.events && here.artifacts == last.artifacts)
      || (a.profileId !in s.artifacts && here == s.(artifacts := s.artifacts[a.profileId := a]))
  {
  }

  lemma RegisterShape(hash: RegistryHash, s: Store, models: Models, p: ContextProfile, refs: seq<string>, at: int, i: nat)
    requires i < |RegisterRun(hash, s, models, p, refs, at).states|
    ensures RegisterRun(hash, s, models, p, refs, at).result.Ok?
    ensures
      var run := RegisterRun(hash, s, models, p, refs, at);
      var here, last := run.states[i], Final(s, run.states);
      if FirstRegistered(s.events, p.modelRef, p.version).Some? then here.events == s.events && here.artifacts == s.artifacts
      else
        || (here.events == last.events && here.artifacts == last.artifacts)
        || (p.modelRef in models && ProfileId(hash, p) !in s.artifacts
            && here == ArtifactOnly(hash, s, p, models[p.modelRef], at, refs))
  {
    WritesMeanSuccess(hash, s, models, p, refs, at);
    if FirstRegistered(s.events, p.modelRef, p.version).None? {
      var a := ArtifactOf(hash, p, models[p.modelRef], at, refs);
      StagedShape(s, a, NextEvent(hash, s.events, p.modelRef, at, RegistrationOf(hash, a)), i);
    }
  }

  /** A state on the way: healthy exactly when nothing was appended yet or the time is in order, and with
      a broken chain otherwise. */
  ghost predicate HealthyOrLate(hash: RegistryHash, s: Store, here: Store, timely: bool) {
    if here.events == s.events || timely then Healthy(hash, here) else !ValidChain(hash, here.events)
  }

  lemma RegisteredHealthyOrLate(hash: RegistryHash, s: Store, models: Models, p: ContextProfile, refs: seq<string>, at: int, i: nat)
    requires Healthy(hash, s) && ValidProfile(p)
    requires i < |RegisterRun(hash, s, models, p, refs, at).states|
    ensures HealthyOrLate(hash, s, RegisterRun(hash, s, models, p, refs, at).states[i], InOrder(s.events, p.modelRef, at))
  {
    RegisterShape(hash, s, models, p, refs, at, i);
    var here := RegisterRun(hash, s, models, p, refs, at).states[i];
    if FirstRegistered(s.events, p.modelRef, p.version).Some? {
      SameEventsStayHealthy(hash, s, here);
    } else {
      RegisterKeepsChain(hash, s, models, p, refs, at);
      var last := Final(s, RegisterRun(hash, s, models, p, refs, at).states);
      if here.events == last.events && here.artifacts == last.artifacts {
        RegisterAppends(hash, s, models, p, refs, at);
        SameStateHealthyOrLate(hash, s, last, here, InOrder(s.events, p.modelRef, at));
      } else {
        MoreArtifactsStayGrounded(hash, s, ArtifactOf(hash, p, models[p.modelRef], at, refs));
      }
    }
  }

  lemma SameStateHealthyOrLate(hash: RegistryHash, s: Store, last: Store, here: Store, timely: bool)
    requires Grounded(hash, last) && (ValidChain(hash, last.events) <==> timely) && last.events != s.events
    requires here.events == last.events && here.artifacts == last.artifacts
    ensures HealthyOrLate(hash, s, here, timely)
  {
    if timely {
      SameEventsStayHealthy(hash, last, here);
    }
  }

  ghost predicate OneStep(s: Store, states: seq<Store>) {
    if |states| == 2 then states[0].events == states[1].events && states[0].artifacts == states[1].artifacts
    else forall i :: 0 <= i < |states| ==> states[i].events == s.events && states[i].artifacts == s.artifacts
  }

  /** An activation writes nothing, the projection, or the event and the projection. */
  lemma ActivateShape(hash: RegistryHash, s: Store, models: Models, id: string, refs: seq<string>, at: int)
    ensures
      var run := ActivateRun(hash, s, models, id, refs, at);
      OneStep(s, run.states) && (|run.states| == 2 ==> run.result.Ok?)
  {
  }

  lemma OneStepHealthyOrLate(hash: RegistryHash, s: Store, states: seq<Store>, timely: bool, i: nat)
    requires Healthy(hash, s) && OneStep(s, states) && i < |states|
    requires |states| == 2 ==>
      Grounded(hash, states[1]) && (ValidChain(hash, states[1].events) <==> timely) && states[1].events != s.events
    ensures HealthyOrLate(hash, s, states[i], timely)
  {
    if |states| == 2 {
      SameStateHealthyOrLate(hash, s, states[1], states[i], timely);
    } else {
      SameEventsStayHealthy(hash, s, states[i]);
    }
  }

  lemma ActivatedHealthyOrLate(hash: RegistryHash, s: Store, models: Models, id: string, refs: seq<string>, at: int, i: nat)
    requires Healthy(hash, s) && i < |ActivateRun(hash, s, models, id, refs, at).states|
    ensures HealthyOrLate(hash, s, ActivateRun(hash, s, models, id, refs, at).states[i], Timely(s, Activate(id, refs, at)))
  {
    ActivateShape(hash, s, models, id, refs, at);
    if |ActivateRun(hash, s, models, id, refs, at).states| == 2 {
      ActivateKeepsChain(hash, s, models, id, refs, at);
      ActivateAppends(hash, s, models, id, refs, at);
    }
    OneStepHealthyOrLate(hash, s, ActivateRun(hash, s, models, id, refs, at).states, Timely(s, Activate(id, refs, at)), i);
  }

  lemma StatesHealthyOrLate(hash: RegistryHash, s: Store, e: Entry, i: nat)
    requires Healthy(hash, s) && WellMade(e.call) && i < |StatesOf(hash, s, e)|
    ensures HealthyOrLate(hash, s, StatesOf(hash, s, e)[i], Timely(s, e.call))
  {
    match e.call {
      case Register(p, refs, at) => RegisteredHealthyOrLate(hash, s, e.models, p, refs, at, i);
      case Activate(id, refs, at) => ActivatedHealthyOrLate(hash, s, e.models, id, refs, at, i);
    }
  }

  lemma PrefixHealthyOrLate(hash: RegistryHash, s: Store, states: seq<Store>, k: nat, timely: bool)
    requires Healthy(hash, s) && k <= |states| && (k > 0 ==> HealthyOrLate(hash, s, states[k - 1], timely))
    ensures HealthyOrLate(hash, s, Final(s, states[..k]), timely)
  {
    if k > 0 {
      assert states[..k][k - 1] == states[k - 1];
    }
  }

  lemma EntryHealthyOrLate(hash: RegistryHash, s: Store, e: Entry)
    requires Healthy(hash, s) && WellMade(e.call)
    ensures HealthyOrLate(hash, s, After(hash, s, e), Timely(s, e.call))
  {
    var states := StatesOf(hash, s, e);
    var k := Min(e.writes, |states|);
    if k > 0 {
      StatesHealthyOrLate(hash, s, e, k - 1);
    }
    PrefixHealthyOrLate(hash, s, states, k, Timely(s, e.call));
  }

  lemma BrokenRefuses(hash: RegistryHash, s: Store, e: Entry)
    requires !ValidChain(hash, s.events)
    ensures After(hash, s, e) == s
  {
  }

  /** A call that appends an event with a time before the model's last one. */
  ghost predicate Backdates(hash: RegistryHash, s: Store, e: Entry) {
    After(hash, s, e).events != s.events && !Timely(s, e.call)
  }

  lemma {:induction false} AlongSplits(next: (Store, Entry) -> Store, s: Store, history: seq<Entry>, i: nat)
    requires i < |history|
    ensures Along(next, s, history[..i + 1]) == next(Along(next, s, history[..i]), history[i])
  {
    assert history[..i + 1][..i] == history[..i];
  }

  /** A step from a kept state is kept, or lost if it is of the bad kind; from a lost state everything is lost. */
  ghost predicate Decided(next: (Store, Entry) -> Store, kept: Store -> bool, lost: Store -> bool,
                          bad: (Store, Entry) -> bool, made: Entry -> bool) {
    && (forall x, e :: kept(x) && made(e) ==> if bad(x, e) then lost(next(x, e)) else kept(next(x, e)))
    && (forall x, e :: lost(x) ==> lost(next(x, e)) && !bad(x, e))
  }

  ghost predicate NoneBad(next: (Store, Entry) -> Store, bad: (Store, Entry) -> bool, s: Store, history: seq<Entry>, n: nat)
    requires n <= |history|
  {
    forall i :: 0 <= i < n ==> !bad(Along(next, s, history[..i]), history[i])
  }

  /** Up to a point of the history: kept while no step was bad, lost from the first bad one on. */
  lemma {:induction false} AlongExactly(next: (Store, Entry) -> Store, kept: Store -> bool, lost: Store -> bool,
                                        bad: (Store, Entry) -> bool, made: Entry -> bool, s: Store, history: seq<Entry>, n: nat)
    requires Decided(next, kept, lost, bad, made) && kept(s) && n <= |history|
    requires forall i :: 0 <= i < |history| ==> made(history[i])
    ensures if NoneBad(next, bad, s, history, n) then kept(Along(next, s, history[..n])) else lost(Along(next, s, history[..n]))
  {
    if n > 0 {
      AlongExactly(next, kept, lost, bad, made, s, history, n - 1);
      AlongSplits(next, s, history, n - 1);
      assert made(history[n - 1]);
      var before := Along(next, s, history[..n - 1]);
      if NoneBad(next, bad, s, history, n - 1) {
        assert NoneBad(next, bad, s, history, n) <==> !bad(before, history[n - 1]);
      } else {
        assert lost(before);
      }
    }
  }

  /** Through every history of registrations, activations, refusals and stops, for every hash, the registry
      is healthy at the end exactly when no call appended an event before its model's last one; after one
      did, the chain is broken for good. */
  lemma {:induction false} HistoriesExactly(hash: RegistryHash, s: Store, history: seq<Entry>)
    requires Healthy(hash, s) && forall i :: 0 <= i < |history| ==> WellMade(history[i].call)
    ensures
      var after := StoreAfter(hash, s, history);
      if exists i :: 0 <= i < |history| && Backdates(hash, StoreAfter(hash, s, history[..i]), history[i])
      then !ValidChain(hash, after.events) else Healthy(hash, after)
  {
    forall x: Store, e: Entry | Healthy(hash, x) && WellMade(e.call)
      ensures if Backdates(hash, x, e) then !ValidChain(hash, NextOf(hash)(x, e).events) else Healthy(hash, NextOf(hash)(x, e))
    {
      EntryHealthyOrLate(hash, x, e);
    }
    forall x: Store, e: Entry | !ValidChain(hash, x.events)
      ensures !ValidChain(hash, NextOf(hash)(x, e).events) && !Backdates(hash, x, e)
    {
      BrokenRefuses(hash, x, e);
    }
    AlongExactly(NextOf(hash), x => Healthy(hash, x), (x: Store) => !ValidChain(hash, x.events),
                 (x, e) => Backdates(hash, x, e), (e: Entry) => WellMade(e.call), s, history, |history|);
    assert history[..|history|] == history;
  }

  /** Callers that never go back in a model's time keep the registry healthy. */
  lemma {:induction false} TimelyHistoryIsHealthy(hash: RegistryHash, s: Store, history: seq<Entry>)
    requires Healthy(hash, s) && forall i :: 0 <= i < |history| ==> WellMade(history[i].call)
    requires forall i :: 0 <= i < |history| ==> Timely(StoreAfter(hash, s, history[..i]), history[i].call)
    ensures Healthy(hash, StoreAfter(hash, s, history))
  {
    HistoriesExactly(hash, s, history);
  }
}

/** The event-sourced registry of context profiles, assembly/context_profiles.py: a validating fold, a
    projecting fold, and the operations that append to the chain both of them read. */
module ContextProfileRegistry {
  import opened Prelude

  datatype ContextProfile = ContextProfile(modelRef: string, version: string, declaration: string)

  /** The identity of the model a profile is bound to. */
  datatype ModelIdentity = ModelIdentity(definitionHash: string, artifactHash: string)

  datatype Change =
    | Registered(profileId: string, payloadModel: string, version: string, profileHash: string, artifactHash: string,
                 model: ModelIdentity, evidence: seq<string>)
    | Activated(profileId: string, profileHash: string, version: string, previousProfile: Option<string>,
                evidence: seq<string>)

  datatype EventBody = EventBody(sequence: int, modelRef: string, occurredAt: int, change: Change, previousHash: string)

  datatype Event = Event(body: EventBody, eventHash: string)

  datatype Artifact = Artifact(
    profileId: string, profile: ContextProfile, profileHash: string, model: ModelIdentity,
    registeredAt: int, evidence: seq<string>)

  /** What canonical_hash is applied to here. */
  datatype Content = EventContent(body: EventBody) | ProfileContent(profile: ContextProfile) | ArtifactContent(artifact: Artifact)

  type RegistryHash = Content -> string

  function ProfileHash(hash: RegistryHash, p: ContextProfile): string { hash(ProfileContent(p)) }

  /** The first 32 digits of the content hash name a profile. */
  function ProfileId(hash: RegistryHash, p: ContextProfile): string {
    var h := ProfileHash(hash, p);
    "MCP-" + (if |h| <= 32 then h else h[..32])
  }

  predicate ValidRefs(refs: seq<string>) {
    refs != [] && "" !in refs && forall i, j :: 0 <= i < j < |refs| ==> refs[i] != refs[j]
  }

  // ------------------------------------------------------------------ the validating fold

  datatype ChainError =
    | SequenceMismatch(at: int) | PreviousHashMismatch(at: int) | EventHashMismatch(at: int) | ModelMissing(at: int)
    | InvalidTime(at: int) | TimeBackwards(at: int) | ProfileDuplicated(at: int) | VersionMissing(at: int)
    | VersionDrift(at: int) | RegistrationRefsInvalid(at: int) | Unregistered(at: int) | ActivationMismatch(at: int)
    | PreviousProfileMismatch(at: int) | ActivationRefsInvalid(at: int)

  datatype Checks = Checks(
    previous: string, registered: map<string, Change>, versions: map<(string, string), string>,
    active: map<string, string>, lastTime: map<string, int>, errors: seq<ChainError>)

  const NO_CHECKS := Checks("GENESIS", map[], map[], map[], map[], [])

  function When(broken: bool, e: ChainError): seq<ChainError> { if broken then [e] else [] }

  function LinkErrors(hash: RegistryHash, c: Checks, at: nat, e: Event): seq<ChainError> {
    When(e.body.sequence != at, SequenceMismatch(at)) + When(e.body.previousHash != c.previous, PreviousHashMismatch(at))
    + When(e.eventHash != hash(EventContent(e.body)), EventHashMismatch(at))
  }

  predicate TimeGoesBack(c: Checks, b: EventBody) {
    b.modelRef in c.lastTime && b.occurredAt < c.lastTime[b.modelRef]
  }

  function TimeErrors(c: Checks, at: nat, b: EventBody): seq<ChainError> {
    When(b.modelRef == "", ModelMissing(at))
    + (if b.occurredAt < 0 then [InvalidTime(at)] else When(TimeGoesBack(c, b), TimeBackwards(at)))
  }

  function LastTimes(c: Checks, b: EventBody): map<string, int> {
    if b.occurredAt >= 0 && !TimeGoesBack(c, b) && b.modelRef != "" then c.lastTime[b.modelRef := b.occurredAt] else c.lastTime
  }

  predicate Drifts(c: Checks, modelRef: string, version: string, profileId: string) {
    (modelRef, version) in c.versions && c.versions[(modelRef, version)] != profileId
  }

  function RegistrationErrors(c: Checks, at: nat, b: EventBody): seq<ChainError>
    requires b.change.Registered?
  {
    var r := b.change;
    When(r.profileId == "" || r.profileId in c.registered, ProfileDuplicated(at))
    + (if r.version == "" then [VersionMissing(at)]
       else When(Drifts(c, b.modelRef, r.version, r.profileId), VersionDrift(at)))
    + When(!ValidRefs(r.evidence), RegistrationRefsInvalid(at))
  }

  function CurrentOf(c: Checks, modelRef: string): Option<string> {
    if modelRef in c.active then Some(c.active[modelRef]) else None
  }

  function ActivationErrors(c: Checks, at: nat, b: EventBody): seq<ChainError>
    requires b.change.Activated?
  {
    var a := b.change;
    if a.profileId !in c.registered then [Unregistered(at)]
    else
      var r := c.registered[a.profileId];
      When(r.Registered? && (r.payloadModel != b.modelRef || r.profileHash != a.profileHash || r.version != a.version),
           ActivationMismatch(at))
      + When(a.previousProfile != CurrentOf(c, b.modelRef), PreviousProfileMismatch(at))
      + When(!ValidRefs(a.evidence), ActivationRefsInvalid(at))
  }

  function EventErrors(hash: RegistryHash, c: Checks, at: nat, e: Event): seq<ChainError> {
    LinkErrors(hash, c, at, e) + TimeErrors(c, at, e.body)
    + (if e.body.change.Registered? then RegistrationErrors(c, at, e.body) else ActivationErrors(c, at, e.body))
  }

  function Checked(hash: RegistryHash, c: Checks, at: nat, e: Event): Checks {
    var b := e.body;
    Checks(
      hash(EventContent(b)),
      if b.change.Registered? then c.registered[b.change.profileId := b.change] else c.registered,
      if b.change.Registered? && b.change.version != "" && !Drifts(c, b.modelRef, b.change.version, b.change.profileId)
      then c.versions[(b.modelRef, b.change.version) := b.change.profileId] else c.versions,
      if b.change.Activated? && b.change.profileId in c.registered then c.active[b.modelRef := b.change.profileId] else c.active,
      LastTimes(c, b),
      c.errors + EventErrors(hash, c, at, e))
  }

  function CheckedAll(hash: RegistryHash, events: seq<Event>): Checks {
    if events == [] then NO_CHECKS
    else
      var n := |events| - 1;
      Checked(hash, CheckedAll(hash, events[..n]), n, events[n])
  }

  function ChainErrors(hash: RegistryHash, events: seq<Event>): seq<ChainError> { CheckedAll(hash, events).errors }

  ghost predicate ValidChain(hash: RegistryHash, events: seq<Event>) { ChainErrors(hash, events) == [] }

  // ------------------------------------------------------------------ the projecting fold

  datatype ProfileRecord = ProfileRecord(
    profileId: string, modelRef: string, version: string, profileHash: string, artifactHash: string,
    model: ModelIdentity, registeredAt: int, evidence: seq<string>, eventHash: string)

  datatype ActiveRecord = ActiveRecord(
    profileId: string, profileHash: string, version: string, activatedAt: int, evidence: seq<string>, eventHash: string)

  datatype Projection = Projection(
    profiles: map<string, ProfileRecord>, active: map<string, ActiveRecord>, lastEventHash: Option<string>, count: nat)

  const EMPTY_PROJECTION := Projection(map[], map[], None, 0)

  function Projected(p: Projection, e: Event): Projection {
    var b := e.body;
    match b.change
    case Registered(id, _, version, profileHash, artifactHash, model, evidence) =>
      Projection(p.profiles[id := ProfileRecord(id, b.modelRef, version, profileHash, artifactHash, model,
                                                b.occurredAt, evidence, e.eventHash)],
                 p.active, Some(e.eventHash), p.count + 1)
    case Activated(id, profileHash, version, _, evidence) =>
      Projection(p.profiles,
                 p.active[b.modelRef := ActiveRecord(id, profileHash, version, b.occurredAt, evidence, e.eventHash)],
                 Some(e.eventHash), p.count + 1)
  }

  function ProjectedAll(events: seq<Event>): Projection {
    if events == [] then EMPTY_PROJECTION
    else Projected(ProjectedAll(events[..|events| - 1]), events[|events| - 1])
  }

  /** The loops of the source. */
  method ValidateEventChain(hash: RegistryHash, events: seq<Event>) returns (errors: seq<ChainError>)
    ensures errors == ChainErrors(hash, events)
  {
    var checks := NO_CHECKS;
    var index := 0;
    while index < |events|
      invariant 0 <= index <= |events| && checks == CheckedAll(hash, events[..index])
    {
      assert events[..index + 1][..index] == events[..index];
      checks := Checked(hash, checks, index, events[index]);
      index := index + 1;
    }
    assert events[..index] == events;
    errors := checks.errors;
  }

  method ProjectEvents(events: seq<Event>) returns (state: Projection)
    ensures state == ProjectedAll(events)
  {
    state := EMPTY_PROJECTION;
    var i := 0;
    while i < |events|
      invariant 0 <= i <= |events| && state == ProjectedAll(events[..i])
    {
      assert events[..i + 1][..i] == events[..i];
      state := Projected(state, events[i]);
      i := i + 1;
    }
    assert events[..i] == events;
  }

  // ------------------------------------------------------------------ the folds agree

  lemma {:induction false} ErrorsStay(hash: RegistryHash, events: seq<Event>, n: nat)
    requires n <= |events|
    ensures ChainErrors(hash, events[..n]) <= ChainErrors(hash, events)
    decreases |events|
  {
    if n < |events| {
      var k := |events| - 1;
      assert events[..k][..n] == events[..n];
      ErrorsStay(hash, events[..k], n);
    } else {
      assert events[..n] == events;
    }
  }

  /** What one fold knows of registered profiles and active ones, the other knows too. */
  ghost predicate Agree(c: Checks, p: Projection) {
    && c.registered.Keys == p.profiles.Keys
    && (forall id :: id in c.registered ==>
          c.registered[id].Registered? && c.registered[id].profileId == id == p.profiles[id].profileId
          && c.registered[id].version == p.profiles[id].version
          && c.registered[id].profileHash == p.profiles[id].profileHash
          && c.registered[id].model == p.profiles[id].model)
    && c.active.Keys == p.active.Keys
    && (forall m :: m in c.active ==> c.active[m] == p.active[m].profileId && c.active[m] in c.registered)
  }

  lemma AgreeStep(hash: RegistryHash, c: Checks, p: Projection, at: nat, e: Event)
    requires Agree(c, p) && EventErrors(hash, c, at, e) == []
    ensures Agree(Checked(hash, c, at, e), Projected(p, e))
  {
  }

  /** The validator's registered and active maps are the projection's, on every valid chain. */
  lemma {:induction false} FoldsAgree(hash: RegistryHash, events: seq<Event>)
    requires ValidChain(hash, events)
    ensures Agree(CheckedAll(hash, events), ProjectedAll(events))
  {
    if events != [] {
      var n := |events| - 1;
      ErrorsStay(hash, events, n);
      FoldsAgree(hash, events[..n]);
      AgreeStep(hash, CheckedAll(hash, events[..n]), ProjectedAll(events[..n]), n, events[n]);
    }
  }

  // ------------------------------------------------------------------ as-of queries

  /** active_profile without loading: the last activation of the model by the time. */
  function ActiveId(events: seq<Event>, modelRef: string, asOf: int): Option<string> {
    if events == [] then None
    else
      var b, before := events[|events| - 1].body, ActiveId(events[..|events| - 1], modelRef, asOf);
      if b.occurredAt > asOf || b.modelRef != modelRef then before
      else if b.change.Activated? then Some(b.change.profileId)
      else before
  }

  method FindActiveId(events: seq<Event>, modelRef: string, asOf: int) returns (active: Option<string>)
    ensures active == ActiveId(events, modelRef, asOf)
  {
    active := None;
    var i := 0;
    while i < |events|
      invariant 0 <= i <= |events| && active == ActiveId(events[..i], modelRef, asOf)
    {
      assert events[..i + 1][..i] == events[..i];
      var b := events[i].body;
      if b.occurredAt <= asOf && b.modelRef == modelRef && b.change.Activated? {
        active := Some(b.change.profileId);
      }
      i := i + 1;
    }
    assert events[..i] == events;
  }

  /** The time of the model's last event. */
  function LastTimeOf(events: seq<Event>, modelRef: string): Option<int> {
    if events == [] then None
    else if events[|events| - 1].body.modelRef == modelRef then Some(events[|events| - 1].body.occurredAt)
    else LastTimeOf(events[..|events| - 1], modelRef)
  }

  ghost predicate InTimeOrder(events: seq<Event>) {
    forall i, j :: 0 <= i < j < |events| && events[i].body.modelRef == events[j].body.modelRef ==>
      events[i].body.occurredAt <= events[j].body.occurredAt
  }

  lemma {:induction false} LastTimeBounds(events: seq<Event>, i: nat)
    requires InTimeOrder(events) && i < |events|
    ensures LastTimeOf(events, events[i].body.modelRef).Some?
    ensures events[i].body.occurredAt <= LastTimeOf(events, events[i].body.modelRef).value
  {
    if i < |events| - 1 && events[|events| - 1].body.modelRef != events[i].body.modelRef {
      LastTimeBounds(events[..|events| - 1], i);
    }
  }

  function TimeIn(times: map<string, int>, modelRef: string): Option<int> {
    if modelRef in times then Some(times[modelRef]) else None
  }

  /** On a valid chain the checked last times are the times of the last events, and each model's events
      are in time order. */
  lemma {:induction false} ValidChainIsOrdered(hash: RegistryHash, events: seq<Event>)
    requires ValidChain(hash, events)
    ensures InTimeOrder(events)
    ensures forall m :: LastTimeOf(events, m) == TimeIn(CheckedAll(hash, events).lastTime, m)
  {
    if events != [] {
      var n := |events| - 1;
      ErrorsStay(hash, events, n);
      ValidChainIsOrdered(hash, events[..n]);
      var c, e := CheckedAll(hash, events[..n]), events[n];
      assert TimeErrors(c, n, e.body) == [];
      forall i | 0 <= i < n && events[i].body.modelRef == e.body.modelRef
        ensures events[i].body.occurredAt <= e.body.occurredAt
      {
        assert events[..n][i] == events[i];
        LastTimeBounds(events[..n], i);
      }
      assert forall i :: 0 <= i < n ==> events[..n][i] == events[i];
    }
  }

  /** The first event of the model after the time, or the end. */
  function CutOf(events: seq<Event>, modelRef: string, asOf: int): (k: nat)
    ensures k <= |events|
    ensures forall i :: 0 <= i < k && events[i].body.modelRef == modelRef ==> events[i].body.occurredAt <= asOf
    ensures k < |events| ==> events[k].body.modelRef == modelRef && events[k].body.occurredAt > asOf
  {
    if events == [] then 0
    else
      var n := |events| - 1;
      var before := CutOf(events[..n], modelRef, asOf);
      assert forall i :: 0 <= i < n ==> events[..n][i] == events[i];
      if before < n then before
      else if events[n].body.modelRef == modelRef && events[n].body.occurredAt > asOf then n
      else n + 1
  }

  function ActiveIn(p: Projection, modelRef: string): Option<string> {
    if modelRef in p.active then Some(p.active[modelRef].profileId) else None
  }

  lemma {:induction false} ActiveOfPrefix(events: seq<Event>, modelRef: string, asOf: int)
    requires forall i :: 0 <= i < |events| && events[i].body.modelRef == modelRef ==> events[i].body.occurredAt <= asOf
    ensures ActiveId(events, modelRef, asOf) == ActiveIn(ProjectedAll(events), modelRef)
  {
    if events != [] {
      var n := |events| - 1;
      assert forall i :: 0 <= i < n ==> events[..n][i] == events[i];
      ActiveOfPrefix(events[..n], modelRef, asOf);
    }
  }

  /** Later events of the model do not change what was active by the time. */
  lemma {:induction false} ActiveIsStable(events: seq<Event>, more: seq<Event>, modelRef: string, asOf: int)
    requires forall i :: 0 <= i < |more| && more[i].body.modelRef == modelRef ==> more[i].body.occurredAt > asOf
    ensures ActiveId(events + more, modelRef, asOf) == ActiveId(events, modelRef, asOf)
  {
    if more == [] {
      assert events + more == events;
    } else {
      var n := |more| - 1;
      assert (events + more)[..|events + more| - 1] == events + more[..n];
      ActiveIsStable(events, more[..n], modelRef, asOf);
    }
  }

  lemma {:induction false} ActiveSplits(early: seq<Event>, late: seq<Event>, modelRef: string, asOf: int)
    requires forall i :: 0 <= i < |early| && early[i].body.modelRef == modelRef ==> early[i].body.occurredAt <= asOf
    requires forall i :: 0 <= i < |late| && late[i].body.modelRef == modelRef ==> late[i].body.occurredAt > asOf
    ensures ActiveId(early + late, modelRef, asOf) == ActiveIn(ProjectedAll(early), modelRef)
  {
    ActiveOfPrefix(early, modelRef, asOf);
    ActiveIsStable(early, late, modelRef, asOf);
  }

  lemma {:induction false} AfterTheCut(events: seq<Event>, modelRef: string, asOf: int, i: nat)
    requires InTimeOrder(events) && CutOf(events, modelRef, asOf) <= i < |events| && events[i].body.modelRef == modelRef
    ensures events[i].body.occurredAt > asOf
  {
  }

  lemma {:induction false} ActiveByOrder(events: seq<Event>, modelRef: string, asOf: int)
    requires InTimeOrder(events)
    ensures ActiveId(events, modelRef, asOf) == ActiveIn(ProjectedAll(events[..CutOf(events, modelRef, asOf)]), modelRef)
  {
    var k := CutOf(events, modelRef, asOf);
    var early, late := events[..k], events[k..];
    forall i | 0 <= i < |late| && late[i].body.modelRef == modelRef ensures late[i].body.occurredAt > asOf {
      AfterTheCut(events, modelRef, asOf, k + i);
    }
    assert early + late == events;
    ActiveSplits(early, late, modelRef, asOf);
  }

  /** active_profile(m, t) is the projection of the chain up to the model's first event after t. */
  lemma {:induction false} ActiveIsProjectionOfPrefix(hash: RegistryHash, events: seq<Event>, modelRef: string, asOf: int)
    requires ValidChain(hash, events)
    ensures
      var k := CutOf(events, modelRef, asOf);
      && ActiveId(events, modelRef, asOf) == ActiveIn(ProjectedAll(events[..k]), modelRef)
      && forall i :: k <= i < |events| && events[i].body.modelRef == modelRef ==> events[i].body.occurredAt > asOf
  {
    ValidChainIsOrdered(hash, events);
    ActiveByOrder(events, modelRef, asOf);
    forall i | CutOf(events, modelRef, asOf) <= i < |events| && events[i].body.modelRef == modelRef
      ensures events[i].body.occurredAt > asOf
    {
      AfterTheCut(events, modelRef, asOf, i);
    }
  }
}

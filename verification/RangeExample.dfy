/** One assembly whose forecast leaves the range of its components: two components without evidence, each
    with a probability of 28 nines, planned from valid journals. */
module RangeExample {
  import opened Prelude
  import opened Sorting
  import opened Evidence
  import opened CompetenceProfiles
  import opened Weighting
  import opened Assembly
  import opened Lineage
  import opened AssemblyAgreement
  import opened RoundedClosure
  import opened RoundedForecast

  const FRAME := Frame("F", Instrument("BTC-USD", "SPOT", ""), "INSTRUMENT_STATE", QUALIFIED, 0, 0,
                       Some(Aggregate(true, Some(1.0), Some(1.0), None)))

  const DEFINITION := ModelDefinition("INSTRUMENT_STATE", TARGET_METRIC, [1])

  function Component(hash: Hash, ref: string): Prediction {
    Prediction("P-" + ref, HISTORICAL_REPLAY, RESEARCH_ONLY, FRAME.instrument, "F", hash(FrameBody(FRAME)), QUALIFIED,
               0, 1, 1, 1, TARGET_METRIC, Price(1.0, "CROSS_VENUE_BBO_MIDPOINT_V1"), 0.0, NINES, None, [ref])
  }

  function Components(hash: Hash): seq<Prediction> { [Component(hash, "a"), Component(hash, "b")] }

  function Start(hash: Hash): World {
    World([JournalEntry(Component(hash, "a"), 1), JournalEntry(Component(hash, "b"), 1)], [],
          [ModelEvent("a", 0, Registered(DEFINITION, "", ""), ""), ModelEvent("b", 0, Registered(DEFINITION, "", ""), "")])
  }

  lemma StartIsValid(hash: Hash)
    ensures ValidJournal(Start(hash).predictions)
  {
    var a, b := Component(hash, "a"), Component(hash, "b");
    assert a.predictionId[2] == 'a' && b.predictionId[2] == 'b';
    assert ValidPrediction(a) && ValidPrediction(b);
  }

  lemma ComponentsAreDurable(hash: Hash)
    ensures DurabilityFault(Start(hash).predictions, Components(hash), 1).None?
  {
    var journal, components := Start(hash).predictions, Components(hash);
    var a, b := components[0], components[1];
    assert a.predictionId[2] == 'a' && b.predictionId[2] == 'b';
    assert components[..1] == [a] && [a][..0] == [] && journal[..1] == [journal[0]];
    assert Lookup(journal, b.predictionId) == Some(journal[1]);
    assert Lookup([journal[0]], a.predictionId) == Some(journal[0]);
    assert Lookup(journal, a.predictionId) == Some(journal[0]);
    assert DurabilityFault(journal, [a], 1).None?;
  }

  lemma CutoffIsZero(hash: Hash)
    ensures CompetenceCutoff(Components(hash)) == 0
  {
  }

  /** Both components were created after the cutoff: nothing is counted, no profile is built. */
  lemma NoProfiles(hash: Hash)
    ensures BuildProfiles(hash, Predictions(Start(hash).predictions), [], 0) == []
  {
    var predictions := Predictions(Start(hash).predictions);
    assert predictions[..1] == [predictions[0]] && [predictions[0]][..0] == [];
    assert Visible([predictions[0]], 0) == [];
    assert Visible(predictions, 0) == [];
    assert SegmentKeys(predictions, 0) == [];
  }

  lemma ComponentsInOrder(hash: Hash)
    ensures Sorted(Components(hash), ComponentLe) == Components(hash)
  {
    SortingOrderedChangesNothing(Components(hash), ComponentLe);
  }

  lemma ComponentsPass(hash: Hash)
    ensures ValidatedComponents(hash, FRAME, Components(hash), 1) == Ok(Components(hash))
  {
    ComponentsInOrder(hash);
    var ordered := Components(hash);
    assert ordered[..0] == [] && ordered[..1] == [ordered[0]];
    assert ComponentFault(hash, FRAME, ordered[0], ordered[0], [], 1).None?;
    assert ComponentFault(hash, FRAME, ordered[1], ordered[0], [ordered[0]], 1).None?;
    assert FirstFault(hash, FRAME, ordered, 1, 1).None?;
  }

  function RecordOf(ref: string): ModelRecord { ModelRecord(ref, CANDIDATE, DEFINITION, "", "", "", 0) }

  lemma RecordsAtOne(hash: Hash)
    ensures RecordAt(Start(hash).events, "a", 1) == Some(RecordOf("a")) && RecordAt(Start(hash).events, "b", 1) == Some(RecordOf("b"))
  {
    var events := Start(hash).events;
    assert events[..1] == [events[0]] && [events[0]][..0] == [];
    assert RecordAt([events[0]], "a", 1) == Some(RecordOf("a"));
  }

  function Item(hash: Hash, ref: string): Provisional { Provisional(Component(hash, ref), RecordOf(ref), None) }

  function Items(hash: Hash): seq<Provisional> { [Item(hash, "a"), Item(hash, "b")] }

  lemma ComponentsAreItems(hash: Hash)
    ensures ProvisionalAll(hash, FRAME, Components(hash), [], Start(hash).events, 1) == Ok(Items(hash))
  {
    var components, events := Components(hash), Start(hash).events;
    RecordsAtOne(hash);
    assert components[..1] == [components[0]] && [components[0]][..0] == [];
    assert ProvisionalOf(hash, FRAME, components[0], [], events, 1) == Ok(Item(hash, "a"));
    assert ProvisionalOf(hash, FRAME, components[1], [], events, 1) == Ok(Item(hash, "b"));
    assert [] + [Item(hash, "a")] == [Item(hash, "a")] && [Item(hash, "a")] + [Item(hash, "b")] == Items(hash);
    assert ProvisionalAll(hash, FRAME, [components[0]], [], events, 1) == Ok([Item(hash, "a")]);
  }

  lemma {:induction false} NoSkills(scale: Option<real>)
    ensures Skills([NO_DIAGNOSTIC, NO_DIAGNOSTIC], scale) == Ok([None, None])
  {
    var d := [NO_DIAGNOSTIC, NO_DIAGNOSTIC];
    assert d[..1] == [NO_DIAGNOSTIC] && [NO_DIAGNOSTIC][..0] == [];
    assert Skills([NO_DIAGNOSTIC][..0], scale) == Ok([]);
    var none: Option<real> := None;
    assert [] + [none] == [none] && [none] + [none] == [none, none];
    assert Skills([NO_DIAGNOSTIC], scale) == Ok([none]);
  }

  lemma CombinedForecast(hash: Hash)
    ensures Combine(hash, FRAME, Items(hash), 1).Ok? && Combine(hash, FRAME, Items(hash), 1).value.0.probabilityPositive == 1.0
  {
    var items := Items(hash);
    var diagnostics := Diagnostics(items);
    assert diagnostics == [NO_DIAGNOSTIC, NO_DIAGNOSTIC];
    NoSkills(ErrorScale(diagnostics));
    assert RawScores(diagnostics, [None, None]) == [1.0, 1.0];
    RangeIsLeft();
    assert Assembly.Probabilities(items) == [NINES, NINES];
  }

  lemma AssemblyOfItems(hash: Hash)
    ensures Assemble(hash, FRAME, Components(hash), [], Start(hash).events, 1) == Combine(hash, FRAME, Items(hash), 1)
  {
    ComponentsPass(hash);
    ComponentsAreItems(hash);
  }

  lemma PlanOfComponents(hash: Hash, assembled: Prediction, r: Receipt)
    requires Combine(hash, FRAME, Items(hash), 1) == Ok((assembled, r))
    ensures Plan(hash, Start(hash), FRAME, Components(hash), 1) == Ok((assembled, WithCutoff(hash, r, 0)))
  {
    ComponentsAreDurable(hash);
    CutoffIsZero(hash);
    NoProfiles(hash);
    AssemblyOfItems(hash);
  }

  lemma PlannedNines(hash: Hash)
    ensures Plan(hash, Start(hash), FRAME, Components(hash), 1).Ok?
    ensures Plan(hash, Start(hash), FRAME, Components(hash), 1).value.0.probabilityPositive == 1.0
  {
    CombinedForecast(hash);
    var (assembled, r) := Combine(hash, FRAME, Items(hash), 1).value;
    PlanOfComponents(hash, assembled, r);
  }

  /** Valid journals, both component probabilities below 1, the assembled one 1. */
  lemma RangeIsLeftByPlan(hash: Hash)
    ensures ValidJournal(Start(hash).predictions)
    ensures Components(hash)[0].probabilityPositive == Components(hash)[1].probabilityPositive == NINES < 1.0
    ensures Plan(hash, Start(hash), FRAME, Components(hash), 1).Ok?
    ensures Plan(hash, Start(hash), FRAME, Components(hash), 1).value.0.probabilityPositive == 1.0
  {
    StartIsValid(hash);
    PlannedNines(hash);
  }
}

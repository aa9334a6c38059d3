/**
 * The doctrine's template catalogue and the option generator: each template
 * has a trigger over the threat, the roster summary and the constraints; a
 * template that fires and whose calculator does not decline yields one
 * option, in catalogue order.
 */
module Catalog {
  import opened Wrappers
  import opened Domain
  import opened Situation
  import opened Calculators

  datatype TemplateId =
    | Priority1Immediate
    | Priority2DroneFirst
    | Priority3MultiLayer
    | Priority4Minimal
    | EwPlusKineticFpv
    | CoordinationWithBrigade
  {
    /** The key under which the template is registered. */
    function Name(): string
    {
      match this
      case Priority1Immediate => "priority_1_immediate"
      case Priority2DroneFirst => "priority_2_drone_first"
      case Priority3MultiLayer => "priority_3_multi_layer"
      case Priority4Minimal => "priority_4_minimal"
      case EwPlusKineticFpv => "ew_plus_kinetic_fpv"
      case CoordinationWithBrigade => "coordination_with_brigade"
    }

    function Title(): string
    {
      match this
      case Priority1Immediate => "ПРІОРИТЕТ 1: Негайний захист критичної інфраструктури"
      case Priority2DroneFirst => "ПРІОРИТЕТ 2: Спочатку дрони, потім ракети"
      case Priority3MultiLayer => "ПРІОРИТЕТ 3: Багаторівнева економічна оборона"
      case Priority4Minimal => "ПРІОРИТЕТ 4: Мінімальна оборона (прийнятний ризик)"
      case EwPlusKineticFpv => "РЕБ + кінетичне ураження (для FPV/Lancet)"
      case CoordinationWithBrigade => "Координація з бригадою для оптимізації"
    }

    /** The template's position in the catalogue. */
    function Index(): (k: nat)
      ensures k < 6
    {
      match this
      case Priority1Immediate => 0
      case Priority2DroneFirst => 1
      case Priority3MultiLayer => 2
      case Priority4Minimal => 3
      case EwPlusKineticFpv => 4
      case CoordinationWithBrigade => 5
    }
  }

  /** The catalogue, in its declaration order (the order of evaluation). */
  const Templates: seq<TemplateId> :=
    [Priority1Immediate, Priority2DroneFirst, Priority3MultiLayer, Priority4Minimal,
     EwPlusKineticFpv, CoordinationWithBrigade]

  /** Every template appears once in the catalogue, at its own index. */
  lemma TemplatesIndexed()
    ensures |Templates| == 6
    ensures forall k :: 0 <= k < |Templates| ==> Templates[k].Index() == k
    ensures forall id: TemplateId :: id in Templates
  {
    forall id: TemplateId ensures id in Templates {
      assert Templates[id.Index()] == id;
    }
  }

  /** The registration keys are pairwise distinct. */
  lemma NamesDistinct(a: TemplateId, b: TemplateId)
    ensures a.Name() == b.Name() ==> a == b
  {
  }

  predicate CheaperThan50k(s: AvailableSystem) { s.costPerShot < 50_000 }

  /**
   * The triggers. The drone-first and EW triggers look for the member
   * names "INTERCEPTOR_DRONE" and "BUKOVEL" among the systems' display
   * values, exactly as written.
   */
  predicate Trigger(id: TemplateId, threat: ThreatInput, summary: Summary, constraints: OperationalConstraints)
  {
    match id
    case Priority1Immediate => threat.targetPriority == Critical
    case Priority2DroneFirst =>
      && threat.targetPriority == High
      && threat.rangeKm > 15.0
      && "INTERCEPTOR_DRONE" in SystemValues(summary.systems)
    case Priority3MultiLayer =>
      && threat.targetPriority in [Medium, High]
      && |Filter(summary.systems, CheaperThan50k)| >= 2
    case Priority4Minimal => threat.targetPriority == Low
    case EwPlusKineticFpv =>
      && "BUKOVEL" in SystemValues(summary.systems)
      && threat.threatType in [Fpv, Lancet]
    case CoordinationWithBrigade =>
      summary.totalMissiles < threat.count * 2 || constraints.expectedFollowOnWaves > 1
  }

  /** The calculator dispatch, over the categorised roster. */
  function Parameters(id: TemplateId, threat: ThreatInput, systems: seq<AvailableSystem>,
                      constraints: OperationalConstraints, summary: Summary): Option<Params>
  {
    var cats := Categorize(systems);
    match id
    case Priority1Immediate => ImmediateParams(threat, cats)
    case Priority2DroneFirst => DroneFirstParams(threat, cats)
    case Priority3MultiLayer => MultiLayerParams(threat, cats)
    case Priority4Minimal => MinimalParams(threat, cats, constraints)
    case EwPlusKineticFpv => EwPlusKineticParams(threat, cats)
    case CoordinationWithBrigade => CoordinationParams(threat, constraints, summary, cats)
  }

  /** The dispatch as the source runs it: the layered and minimal calculators by their loops. */
  method CalculateParameters(id: TemplateId, threat: ThreatInput, systems: seq<AvailableSystem>,
                             constraints: OperationalConstraints, summary: Summary) returns (r: Option<Params>)
    ensures r == Parameters(id, threat, systems, constraints, summary)
  {
    var cats := Categorize(systems);
    match id {
      case Priority1Immediate => r := ImmediateParams(threat, cats);
      case Priority2DroneFirst => r := DroneFirstParams(threat, cats);
      case Priority3MultiLayer => r := ComputeMultiLayer(threat, cats);
      case Priority4Minimal => r := ComputeMinimal(threat, cats, constraints);
      case EwPlusKineticFpv => r := EwPlusKineticParams(threat, cats);
      case CoordinationWithBrigade => r := CoordinationParams(threat, constraints, summary, cats);
    }
  }

  /** One generated option; the timestamped identifier is not modelled. */
  datatype GeneratedOption = GeneratedOption(
    title: string,
    description: string,
    templateId: TemplateId,
    parameters: Params,
    estimatedCost: int,
    estimatedSuccessRate: int,
    systemsUsed: seq<string>)

  /** Renders a template's narrative from its parameters (formatting is not modelled). */
  type Renderer = (TemplateId, Params) -> string

  function OptionFor(id: TemplateId, params: Params, render: Renderer): (o: GeneratedOption)
    ensures o.templateId == id && o.title == id.Title() && o.parameters == params
    ensures o.estimatedCost == params.cost && o.estimatedSuccessRate == params.successRate
    ensures o.systemsUsed == params.systemsUsed && o.description == render(id, params)
  {
    GeneratedOption(id.Title(), render(id, params), id, params, params.cost, params.successRate, params.systemsUsed)
  }

  /** Whether template `id` yields an option: its trigger holds and its calculator does not decline. */
  predicate Fires(id: TemplateId, threat: ThreatInput, systems: seq<AvailableSystem>, constraints: OperationalConstraints)
  {
    var summary := Summarize(systems);
    Trigger(id, threat, summary, constraints) && Parameters(id, threat, systems, constraints, summary).Some?
  }

  function Outcome(id: TemplateId, threat: ThreatInput, systems: seq<AvailableSystem>,
                   constraints: OperationalConstraints): (r: Option<Params>)
    ensures r.Some? <==> Fires(id, threat, systems, constraints)
    ensures r.Some? ==> Some(r.value) == Parameters(id, threat, systems, constraints, Summarize(systems))
  {
    var summary := Summarize(systems);
    if Trigger(id, threat, summary, constraints) then Parameters(id, threat, systems, constraints, summary) else None
  }

  /** What each template contributes, by catalogue position: its parameters when it fires, nothing otherwise. */
  type OutcomeTable = t: seq<Option<Params>> | |t| == 6 witness [None, None, None, None, None, None]

  function Outcomes(threat: ThreatInput, systems: seq<AvailableSystem>, constraints: OperationalConstraints): OutcomeTable
  {
    Table(Outcome(Priority1Immediate, threat, systems, constraints),
          Outcome(Priority2DroneFirst, threat, systems, constraints),
          Outcome(Priority3MultiLayer, threat, systems, constraints),
          Outcome(Priority4Minimal, threat, systems, constraints),
          Outcome(EwPlusKineticFpv, threat, systems, constraints),
          Outcome(CoordinationWithBrigade, threat, systems, constraints))
  }

  function Table(a: Option<Params>, b: Option<Params>, c: Option<Params>,
                 d: Option<Params>, e: Option<Params>, f: Option<Params>): OutcomeTable
  {
    [a, b, c, d, e, f]
  }

  /** Entry `id.Index()` of the table is template `id`'s outcome. */
  lemma OutcomesIndexed(threat: ThreatInput, systems: seq<AvailableSystem>, constraints: OperationalConstraints)
    ensures forall id: TemplateId ::
      Outcomes(threat, systems, constraints)[id.Index()] == Outcome(id, threat, systems, constraints)
  {
    forall id: TemplateId
      ensures Outcomes(threat, systems, constraints)[id.Index()] == Outcome(id, threat, systems, constraints)
    {
      assert Templates[id.Index()] == id;
    }
  }

  /** The options the templates `ids` yield, taken in order. */
  function OptionsOf(ids: seq<TemplateId>, table: OutcomeTable, render: Renderer): seq<GeneratedOption>
  {
    if ids == [] then []
    else
      var earlier := OptionsOf(ids[..|ids| - 1], table, render);
      var id := ids[|ids| - 1];
      match table[id.Index()]
      case Some(params) => earlier + [OptionFor(id, params, render)]
      case None => earlier
  }

  function GeneratedOptions(threat: ThreatInput, systems: seq<AvailableSystem>,
                            constraints: OperationalConstraints, render: Renderer): seq<GeneratedOption>
  {
    OptionsOf(Templates, Outcomes(threat, systems, constraints), render)
  }

  /** The generator loop: summarise, then walk the catalogue appending each option that fires. */
  method GenerateOptions(threat: ThreatInput, systems: seq<AvailableSystem>,
                         constraints: OperationalConstraints, render: Renderer) returns (options: seq<GeneratedOption>)
    ensures options == GeneratedOptions(threat, systems, constraints, render)
  {
    var summary := Summarize(systems);
    ghost var table := Outcomes(threat, systems, constraints);
    OutcomesIndexed(threat, systems, constraints);
    options := [];
    for k := 0 to |Templates|
      invariant options == OptionsOf(Templates[..k], table, render)
    {
      var id := Templates[k];
      assert Templates[..k + 1] == Templates[..k] + [id];
      OptionsOfSnoc(Templates[..k], id, table, render);
      if !Trigger(id, threat, summary, constraints) {
        assert table[id.Index()].None?;
        continue;
      }
      var params := CalculateParameters(id, threat, systems, constraints, summary);
      assert table[id.Index()] == params;
      if params.None? {
        continue;
      }
      options := options + [OptionFor(id, params.value, render)];
    }
    assert Templates[..|Templates|] == Templates;
  }

  // ---------------------------------------------------------------------------
  // What the generator promises
  // ---------------------------------------------------------------------------

  predicate StrictlyInCatalogueOrder(options: seq<GeneratedOption>)
  {
    forall i, j :: 0 <= i < j < |options| ==> options[i].templateId.Index() < options[j].templateId.Index()
  }

  predicate OnlyFrom(options: seq<GeneratedOption>, ids: seq<TemplateId>)
  {
    forall k :: 0 <= k < |options| ==> options[k].templateId in ids
  }

  /** Every option is its template's table entry, rendered. */
  predicate FromTable(options: seq<GeneratedOption>, table: OutcomeTable, render: Renderer)
  {
    forall k :: 0 <= k < |options| ==>
      && table[options[k].templateId.Index()] == Some(options[k].parameters)
      && options[k] == OptionFor(options[k].templateId, options[k].parameters, render)
  }

  /** Every template of `ids` with an entry has an option. */
  predicate CoversTable(options: seq<GeneratedOption>, ids: seq<TemplateId>, table: OutcomeTable)
  {
    forall id :: id in ids && table[id.Index()].Some? ==> exists k :: 0 <= k < |options| && options[k].templateId == id
  }

  lemma OptionPosition(ids: seq<TemplateId>, table: OutcomeTable, render: Renderer, id: TemplateId) returns (k: nat)
    requires id in ids && table[id.Index()].Some?
    ensures k < |OptionsOf(ids, table, render)| && OptionsOf(ids, table, render)[k].templateId == id
  {
    OptionsOfComplete(ids, table, render);
    var options := OptionsOf(ids, table, render);
    k :| 0 <= k < |options| && options[k].templateId == id;
  }

  /** Only the examined templates appear, each at most once and in the order examined. */
  lemma {:induction false} OptionsOfOrdered(ids: seq<TemplateId>, table: OutcomeTable, render: Renderer)
    requires forall i, j :: 0 <= i < j < |ids| ==> ids[i].Index() < ids[j].Index()
    ensures |OptionsOf(ids, table, render)| <= |ids|
    ensures StrictlyInCatalogueOrder(OptionsOf(ids, table, render))
    ensures OnlyFrom(OptionsOf(ids, table, render), ids)
  {
    if ids != [] {
      var front := ids[..|ids| - 1];
      var id := ids[|ids| - 1];
      assert ids == front + [id];
      OptionsOfOrdered(front, table, render);
      OptionsOfSnoc(front, id, table, render);
      var earlier := OptionsOf(front, table, render);
      EarlierPrecede(earlier, front, id);
      if table[id.Index()].Some? {
        AppendInOrder(earlier, OptionFor(id, table[id.Index()].value, render), front + [id]);
      }
    }
  }

  /** Appending an option whose template comes after all earlier ones keeps the order. */
  lemma AppendInOrder(earlier: seq<GeneratedOption>, o: GeneratedOption, ids: seq<TemplateId>)
    requires StrictlyInCatalogueOrder(earlier) && OnlyFrom(earlier, ids) && o.templateId in ids
    requires forall k :: 0 <= k < |earlier| ==> earlier[k].templateId.Index() < o.templateId.Index()
    ensures StrictlyInCatalogueOrder(earlier + [o]) && OnlyFrom(earlier + [o], ids)
  {
    var options := earlier + [o];
    forall i, j | 0 <= i < j < |options|
      ensures options[i].templateId.Index() < options[j].templateId.Index()
    {
      assert options[i] == earlier[i];
    }
    forall k | 0 <= k < |options| ensures options[k].templateId in ids {
      if k < |earlier| {
        assert options[k] == earlier[k];
      }
    }
  }

  /** Options drawn from templates examined before `id` all come before it in the catalogue. */
  lemma EarlierPrecede(earlier: seq<GeneratedOption>, front: seq<TemplateId>, id: TemplateId)
    requires OnlyFrom(earlier, front)
    requires forall m :: 0 <= m < |front| ==> front[m].Index() < id.Index()
    ensures forall k :: 0 <= k < |earlier| ==> earlier[k].templateId.Index() < id.Index()
    ensures OnlyFrom(earlier, front + [id])
  {
    forall k | 0 <= k < |earlier| ensures earlier[k].templateId.Index() < id.Index() {
      var m :| 0 <= m < |front| && front[m] == earlier[k].templateId;
    }
  }

  /** Every option is its template's table entry, rendered. */
  lemma {:induction false} OptionsOfFaithful(ids: seq<TemplateId>, table: OutcomeTable, render: Renderer)
    ensures FromTable(OptionsOf(ids, table, render), table, render)
  {
    if ids != [] {
      var front := ids[..|ids| - 1];
      var id := ids[|ids| - 1];
      assert ids == front + [id];
      OptionsOfFaithful(front, table, render);
      OptionsOfSnoc(front, id, table, render);
      var earlier := OptionsOf(front, table, render);
      var options := OptionsOf(ids, table, render);
      forall k | 0 <= k < |earlier| ensures options[k] == earlier[k] {
      }
    }
  }

  /** Every examined template with an entry has its option. */
  lemma {:induction false} OptionsOfComplete(ids: seq<TemplateId>, table: OutcomeTable, render: Renderer)
    ensures CoversTable(OptionsOf(ids, table, render), ids, table)
  {
    if ids != [] {
      var front := ids[..|ids| - 1];
      var id := ids[|ids| - 1];
      assert ids == front + [id];
      OptionsOfComplete(front, table, render);
      OptionsOfSnoc(front, id, table, render);
      var earlier := OptionsOf(front, table, render);
      var options := OptionsOf(ids, table, render);
      forall x | x in ids && table[x.Index()].Some?
        ensures exists k :: 0 <= k < |options| && options[k].templateId == x
      {
        if x != id {
          assert x in front;
          var k :| 0 <= k < |earlier| && earlier[k].templateId == x;
          assert options[k] == earlier[k];
        } else {
          assert options[|earlier|].templateId == x;
        }
      }
    }
  }

  /** Examining one more template appends its option when it has one. */
  lemma OptionsOfSnoc(ids: seq<TemplateId>, id: TemplateId, table: OutcomeTable, render: Renderer)
    ensures OptionsOf(ids + [id], table, render) ==
      OptionsOf(ids, table, render) + (if table[id.Index()].Some? then [OptionFor(id, table[id.Index()].value, render)] else [])
  {
    assert (ids + [id])[..|ids|] == ids;
  }

  /** Each option carries its template's title and its calculator's cost, success rate and systems. */
  predicate Faithful(o: GeneratedOption, threat: ThreatInput, systems: seq<AvailableSystem>,
                     constraints: OperationalConstraints, render: Renderer)
  {
    && Fires(o.templateId, threat, systems, constraints)
    && Parameters(o.templateId, threat, systems, constraints, Summarize(systems)) == Some(o.parameters)
    && o.title == o.templateId.Title()
    && o.estimatedCost == o.parameters.cost
    && o.estimatedSuccessRate == o.parameters.successRate
    && o.systemsUsed == o.parameters.systemsUsed
    && o.description == render(o.templateId, o.parameters)
  }

  /** Each option carries its template's title and its calculator's cost, success rate and systems. */
  predicate AllFaithful(options: seq<GeneratedOption>, threat: ThreatInput, systems: seq<AvailableSystem>,
                        constraints: OperationalConstraints, render: Renderer)
  {
    forall k :: 0 <= k < |options| ==> Faithful(options[k], threat, systems, constraints, render)
  }

  /** The generator emits at most one option per template, in catalogue order. */
  lemma GeneratedOptionsOrdered(threat: ThreatInput, systems: seq<AvailableSystem>,
                                constraints: OperationalConstraints, render: Renderer)
    ensures |GeneratedOptions(threat, systems, constraints, render)| <= 6
    ensures StrictlyInCatalogueOrder(GeneratedOptions(threat, systems, constraints, render))
  {
    TemplatesIndexed();
    OptionsOfOrdered(Templates, Outcomes(threat, systems, constraints), render);
  }

  /**
   * Each option comes from a template that fires, and carries that template's
   * title and its calculator's cost, success rate and systems.
   */
  lemma GeneratedOptionsFaithful(threat: ThreatInput, systems: seq<AvailableSystem>,
                                 constraints: OperationalConstraints, render: Renderer)
    ensures AllFaithful(GeneratedOptions(threat, systems, constraints, render), threat, systems, constraints, render)
  {
    var table := Outcomes(threat, systems, constraints);
    var options := OptionsOf(Templates, table, render);
    OptionsOfFaithful(Templates, table, render);
    OutcomesIndexed(threat, systems, constraints);
    forall k | 0 <= k < |options| ensures Faithful(options[k], threat, systems, constraints, render) {
      var o := options[k];
      assert table[o.templateId.Index()] == Some(o.parameters);
      assert Outcome(o.templateId, threat, systems, constraints) == Some(o.parameters);
    }
  }

  /** Every template that fires has its option, at position `k`. */
  lemma GeneratedOptionsComplete(id: TemplateId, threat: ThreatInput, systems: seq<AvailableSystem>,
                                 constraints: OperationalConstraints, render: Renderer) returns (k: nat)
    requires Fires(id, threat, systems, constraints)
    ensures k < |GeneratedOptions(threat, systems, constraints, render)|
    ensures GeneratedOptions(threat, systems, constraints, render)[k].templateId == id
  {
    var table := Outcomes(threat, systems, constraints);
    TemplatesIndexed();
    OutcomesIndexed(threat, systems, constraints);
    assert table[id.Index()].Some?;
    k := OptionPosition(Templates, table, render, id);
  }

  /** Template `id` has an option exactly when its trigger holds and its calculator does not decline. */
  lemma GeneratedOptionsExactly(id: TemplateId, threat: ThreatInput, systems: seq<AvailableSystem>,
                                constraints: OperationalConstraints, render: Renderer)
    ensures Fires(id, threat, systems, constraints) <==>
      exists k :: 0 <= k < |GeneratedOptions(threat, systems, constraints, render)| &&
                  GeneratedOptions(threat, systems, constraints, render)[k].templateId == id
  {
    var options := GeneratedOptions(threat, systems, constraints, render);
    if Fires(id, threat, systems, constraints) {
      var k := GeneratedOptionsComplete(id, threat, systems, constraints, render);
    }
    if exists k :: 0 <= k < |options| && options[k].templateId == id {
      var k :| 0 <= k < |options| && options[k].templateId == id;
      GeneratedOptionsFaithful(threat, systems, constraints, render);
      assert Faithful(options[k], threat, systems, constraints, render);
    }
  }

  /** No system's display value is a member name the two triggers look for. */
  lemma MemberNamesAreNotValues(s: SystemType)
    ensures s.Value() != "INTERCEPTOR_DRONE" && s.Value() != "BUKOVEL"
  {
  }

  /** The drone-first and EW triggers never fire, whatever the roster holds. */
  lemma NameTriggersNeverFire(threat: ThreatInput, summary: Summary, constraints: OperationalConstraints)
    ensures !Trigger(Priority2DroneFirst, threat, summary, constraints)
    ensures !Trigger(EwPlusKineticFpv, threat, summary, constraints)
  {
    var values := SystemValues(summary.systems);
    forall k | 0 <= k < |values| ensures values[k] != "INTERCEPTOR_DRONE" && values[k] != "BUKOVEL" {
      MemberNamesAreNotValues(summary.systems[k].systemType);
    }
  }

  /** So the drone-first and EW options are never generated. */
  lemma NoDroneFirstOrEwOption(threat: ThreatInput, systems: seq<AvailableSystem>,
                               constraints: OperationalConstraints, render: Renderer)
    ensures forall o :: o in GeneratedOptions(threat, systems, constraints, render) ==>
      o.templateId != Priority2DroneFirst && o.templateId != EwPlusKineticFpv
  {
    var table := Outcomes(threat, systems, constraints);
    var options := OptionsOf(Templates, table, render);
    OptionsOfFaithful(Templates, table, render);
    NameTriggersNeverFire(threat, Summarize(systems), constraints);
    OutcomesIndexed(threat, systems, constraints);
    assert Outcome(Priority2DroneFirst, threat, systems, constraints).None?;
    assert Outcome(EwPlusKineticFpv, threat, systems, constraints).None?;
    forall o | o in options ensures o.templateId != Priority2DroneFirst && o.templateId != EwPlusKineticFpv {
      var k :| 0 <= k < |options| && options[k] == o;
      assert table[o.templateId.Index()].Some?;
    }
  }

  /**
   * The coordination trigger fires exactly when the three cost tiers together
   * hold fewer than two rounds per threat, or more than one follow-on wave is expected.
   */
  lemma CoordinationTrigger(threat: ThreatInput, systems: seq<AvailableSystem>, constraints: OperationalConstraints)
    ensures var summary := Summarize(systems);
      Trigger(CoordinationWithBrigade, threat, summary, constraints) <==>
        || summary.premiumMissiles + summary.moderateMissiles + summary.economicalUnits < 2 * threat.count
        || constraints.expectedFollowOnWaves > 1
  {
  }

  /**
   * As written, an empty roster facing at least one threat makes the
   * coordination template fire and then crash in its calculator.
   */
  lemma EmptyRosterCrashesAsWritten(threat: ThreatInput, constraints: OperationalConstraints)
    requires threat.count >= 1
    ensures Trigger(CoordinationWithBrigade, threat, Summarize([]), constraints)
    ensures CoordinationAsWritten(threat, constraints, Summarize([]), Categorize([])).Failure?
  {
    CoordinationFailsOnEmptyRoster(threat, constraints, []);
  }

  /** With the corrected calculator the coordination option appears iff it triggers and the roster is non-empty. */
  lemma CoordinationOptionPresent(threat: ThreatInput, systems: seq<AvailableSystem>, constraints: OperationalConstraints)
    ensures Fires(CoordinationWithBrigade, threat, systems, constraints) <==>
      Trigger(CoordinationWithBrigade, threat, Summarize(systems), constraints) && systems != []
  {
    var cats := Categorize(systems);
    if systems != [] {
      var x := systems[0];
      assert x in cats.premium || x in cats.moderate || x in cats.economical;
    }
  }
}

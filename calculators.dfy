/**
 * The six per-template parameter calculators of the battery doctrine. Each
 * reads the categorised roster and either declines (`None`) or yields the
 * parameter set of one option: its cost, its success percentage, the
 * systems it uses, and the template-specific figures.
 */
module Calculators {
  import opened Wrappers
  import opened Numeric
  import opened Domain
  import opened Estimator
  import opened Situation

  /** The calculators never pass the constraints' weather on: they estimate under the default label. */
  const Nominal: string := "Nominal"

  /**
   * The estimate for `sys` engaging a threat at the given fraction of the
   * threat's current range. An abbreviation: it names the estimator term that
   * the calculators' contracts share, and its second postcondition only
   * unfolds that name.
   */
  function ChanceAt(threat: ThreatInput, sys: AvailableSystem, fraction: real): (p: real)
    ensures 0.0 <= p <= 0.95
    ensures p == SuccessRate(sys.systemType, threat.rangeKm * fraction, threat.threatType, Nominal)
  {
    SuccessRate(sys.systemType, threat.rangeKm * fraction, threat.threatType, Nominal)
  }

  /** One layer of the multi-layer option. */
  datatype Layer = Layer(rangeKm: int, system: SystemType, count: int, cost: int, success: int)

  /** The template-specific figures of a parameter set (the narrative text is not modelled). */
  datatype Detail =
    | ImmediateDetail(
        premiumSystem: SystemType, missilesAllocated: int, threatCount: int, threatType: ThreatType,
        currentRange: real, timeToLaunch: int, targetDescription: string,
        reserveCount: int)   // the number in "reserve_description"
    | DroneFirstDetail(
        droneCount: int, droneLaunchTime: int, droneCost: int, droneSuccessRate: int,
        missileCount: int, missileSystem: SystemType, missileRange: int, missileCost: int,
        totalCost: int, combinedSuccessRate: int, threatCount: int, threatType: ThreatType)
    | MultiLayerDetail(
        layer1: Layer, layer2: Layer, layer3: Layer, minCost: int, maxCost: int, cumulativeSuccess: int)
    | MinimalDetail(
        mobileCount: int, droneCount: int, helicopterCount: int, targetDescription: string,
        followOnWaves: int, threatCount: int, acceptableLosses: int)
    | EwPlusKineticDetail(
        threatType: ThreatType, ewSuccessRate: int, kineticCount: int, kineticSystem: SystemType,
        kineticCost: int, kineticSuccessRate: int, backupSystem: SystemType, combinedSuccess: int)
    | CoordinationDetail(
        allocationSystem: SystemType,   // the system in "my_allocation", one unit of it
        reservePercent: int, supportSources: string, responseTime: int, expectedSupport: string,
        followOnWaves: int, totalMissiles: int, threatRange: real)

  /** The keys every calculator fills in: `cost`, `success_rate`, `systems_used`. */
  datatype Params = Params(cost: int, successRate: int, systemsUsed: seq<string>, detail: Detail)

  // ---------------------------------------------------------------------------
  // priority_1_immediate
  // ---------------------------------------------------------------------------

  /**
   * Fire the dearest premium system now: as many rounds as there are threats,
   * but no more than that system has.
   */
  function ImmediateParams(threat: ThreatInput, cats: Categories): (r: Option<Params>)
    ensures r.None? <==> cats.premium == []
    ensures r.Some? ==>
      var primary := cats.premium[0];
      var d := r.value.detail;
      && d.ImmediateDetail?
      && d.premiumSystem == primary.systemType
      && d.missilesAllocated == Min(threat.count, primary.missilesAvailable)
      && d.reserveCount == primary.missilesAvailable - d.missilesAllocated >= 0
      && r.value.cost == primary.costPerShot * d.missilesAllocated
      // the primary system's estimate at the threat's current range
      && r.value.successRate == Percent(SuccessRate(primary.systemType, threat.rangeKm, threat.threatType, Nominal))
      && 0 <= r.value.successRate <= 95
      && r.value.systemsUsed == [primary.systemType.Value()]
  {
    if cats.premium == [] then None
    else
      var primary := cats.premium[0];
      var missilesNeeded := Min(threat.count, primary.missilesAvailable);
      var successRate := SuccessRate(primary.systemType, threat.rangeKm, threat.threatType, Nominal);
      Some(Params(
        primary.costPerShot * missilesNeeded,
        Percent(successRate),
        [primary.systemType.Value()],
        ImmediateDetail(
          primary.systemType, missilesNeeded, threat.count, threat.threatType, threat.rangeKm, 2,
          threat.targetDescription, primary.missilesAvailable - missilesNeeded)))
  }

  // ---------------------------------------------------------------------------
  // priority_2_drone_first
  // ---------------------------------------------------------------------------

  /**
   * Interceptor drones first, a moderate missile system as backup. The
   * combined chance is "drones succeed, or drones fail and missiles succeed".
   */
  function DroneFirstParams(threat: ThreatInput, cats: Categories): (r: Option<Params>)
    ensures r.None? <==> cats.drones == [] || cats.moderate == []
    ensures r.Some? ==>
      var droneSys := cats.drones[0];
      var missileSys := cats.moderate[0];
      var d := r.value.detail;
      && d.DroneFirstDetail?
      && d.droneCount == Min(Max(2, threat.count), droneSys.missilesAvailable)
      && d.missileCount == Min(Max(2, threat.count / 2), missileSys.missilesAvailable)
      && d.droneCost == droneSys.costPerShot * d.droneCount
      && d.missileCost == missileSys.costPerShot * d.missileCount
      // the reported cost is the worst case: both stages fire
      && r.value.cost == d.totalCost == d.droneCost + d.missileCost
      // drones engage at 70% of the range, missiles at 40%; the chance is the union of the two
      && d.droneSuccessRate == Percent(ChanceAt(threat, droneSys, 0.7))
      && d.combinedSuccessRate == Percent(Union2(ChanceAt(threat, droneSys, 0.7), ChanceAt(threat, missileSys, 0.4)))
      && d.missileRange == TruncToInt(threat.rangeKm * 0.4)
      && r.value.successRate == d.combinedSuccessRate
      && d.droneSuccessRate <= d.combinedSuccessRate <= 100
      && r.value.systemsUsed == [droneSys.systemType.Value(), missileSys.systemType.Value()]
  {
    if cats.drones == [] || cats.moderate == [] then None
    else
      var droneSys := cats.drones[0];
      var missileSys := cats.moderate[0];
      var droneCount := Min(Max(2, threat.count), droneSys.missilesAvailable);
      var missileCount := Min(Max(2, threat.count / 2), missileSys.missilesAvailable);
      var droneSuccess := ChanceAt(threat, droneSys, 0.7);
      var missileSuccess := ChanceAt(threat, missileSys, 0.4);
      var combined := Union2(droneSuccess, missileSuccess);
      Union2Percent(droneSuccess, missileSuccess);
      var droneCost := droneSys.costPerShot * droneCount;
      var missileCost := missileSys.costPerShot * missileCount;
      Some(Params(
        droneCost + missileCost,
        Percent(combined),
        [droneSys.systemType.Value(), missileSys.systemType.Value()],
        DroneFirstDetail(
          droneCount, 3, droneCost, Percent(droneSuccess),
          missileCount, missileSys.systemType, TruncToInt(threat.rangeKm * 0.4), missileCost,
          droneCost + missileCost, Percent(combined), threat.count, threat.threatType)))
  }

  // ---------------------------------------------------------------------------
  // priority_3_multi_layer
  // ---------------------------------------------------------------------------

  /** The head of each non-empty tier, cheapest tier first. */
  function LayerCandidates(cats: Categories): (layers: seq<AvailableSystem>)
    ensures |layers| == TierCount(cats)
  {
    (if cats.economical != [] then [cats.economical[0]] else [])
    + (if cats.moderate != [] then [cats.moderate[0]] else [])
    + (if cats.premium != [] then [cats.premium[0]] else [])
  }

  /** How many of the three tiers are non-empty. */
  function TierCount(cats: Categories): nat
  {
    (if cats.economical != [] then 1 else 0)
    + (if cats.moderate != [] then 1 else 0)
    + (if cats.premium != [] then 1 else 0)
  }

  /** Repeats the last layer until there are three. */
  function PadToThree(layers: seq<AvailableSystem>): (r: seq<AvailableSystem>)
    requires |layers| >= 1
    ensures |r| >= 3 && |r| >= |layers| && r[..|layers|] == layers
    ensures forall k :: |layers| <= k < |r| ==> r[k] == layers[|layers| - 1]
    decreases 3 - |layers|
  {
    if |layers| >= 3 then layers
    else PadToThree(layers + [layers[|layers| - 1]])
  }

  /** One layer: `sys` firing `count` rounds at the given fraction of the range, with its estimate there. */
  function LayerOf(threat: ThreatInput, sys: AvailableSystem, fraction: real, count: int): (l: Layer)
    ensures l.rangeKm == TruncToInt(threat.rangeKm * fraction) && l.system == sys.systemType && l.count == count
    ensures l.cost == sys.costPerShot * count
    ensures l.success == Percent(ChanceAt(threat, sys, fraction))
  {
    Layer(TruncToInt(threat.rangeKm * fraction), sys.systemType, count, sys.costPerShot * count,
          Percent(ChanceAt(threat, sys, fraction)))
  }

  /**
   * Three layers at 50%, 35% and 20% of the current range. The chance is the
   * union of the three, 1 - (1-p1)(1-p2)(1-p3); the reported cost is the
   * typical case, layers 1-2.
   */
  function LayeredParams(threat: ThreatInput, l1: AvailableSystem, l2: AvailableSystem, l3: AvailableSystem): (r: Params)
    ensures r.detail.MultiLayerDetail?
    // each layer fires at least 2, 1 and 1 rounds (or a third of the raid), never beyond its stock
    ensures r.detail.layer1 == LayerOf(threat, l1, 0.5, Min(Max(2, threat.count), l1.missilesAvailable))
    ensures r.detail.layer2 == LayerOf(threat, l2, 0.35, Min(Max(1, threat.count / 2), l2.missilesAvailable))
    ensures r.detail.layer3 == LayerOf(threat, l3, 0.2, Min(Max(1, threat.count / 3), l3.missilesAvailable))
    ensures r.detail.cumulativeSuccess ==
      Percent(Union3(ChanceAt(threat, l1, 0.5), ChanceAt(threat, l2, 0.35), ChanceAt(threat, l3, 0.2)))
    ensures var d := r.detail;
      && d.minCost == d.layer1.cost
      && r.cost == d.layer1.cost + d.layer2.cost
      && d.maxCost == d.layer1.cost + d.layer2.cost + d.layer3.cost
      && r.successRate == d.cumulativeSuccess <= 100
      && d.layer1.success <= d.cumulativeSuccess && d.layer2.success <= d.cumulativeSuccess
      && d.layer3.success <= d.cumulativeSuccess
      && r.systemsUsed == [l1.systemType.Value(), l2.systemType.Value(), l3.systemType.Value()]
  {
    var count1 := Min(Max(2, threat.count), l1.missilesAvailable);
    var count2 := Min(Max(1, threat.count / 2), l2.missilesAvailable);
    var count3 := Min(Max(1, threat.count / 3), l3.missilesAvailable);
    var success1, success2, success3 := ChanceAt(threat, l1, 0.5), ChanceAt(threat, l2, 0.35), ChanceAt(threat, l3, 0.2);
    var cumulative := Percent(Union3(success1, success2, success3));
    Union3Percent(success1, success2, success3);
    var layer1 := LayerOf(threat, l1, 0.5, count1);
    var layer2 := LayerOf(threat, l2, 0.35, count2);
    var layer3 := LayerOf(threat, l3, 0.2, count3);
    Params(
      layer1.cost + layer2.cost,
      cumulative,
      [l1.systemType.Value(), l2.systemType.Value(), l3.systemType.Value()],
      MultiLayerDetail(layer1, layer2, layer3, layer1.cost, layer1.cost + layer2.cost + layer3.cost,
                       cumulative))
  }

  /** Declines unless at least two tiers are present; pads a missing tier by repeating the last. */
  function MultiLayerParams(threat: ThreatInput, cats: Categories): (r: Option<Params>)
    ensures r.None? <==> TierCount(cats) < 2
  {
    var candidates := LayerCandidates(cats);
    if |candidates| < 2 then None
    else
      var layers := PadToThree(candidates);
      Some(LayeredParams(threat, layers[0], layers[1], layers[2]))
  }

  /** The source's step-by-step construction: append each tier's head, then pad with a loop. */
  method ComputeMultiLayer(threat: ThreatInput, cats: Categories) returns (r: Option<Params>)
    ensures r == MultiLayerParams(threat, cats)
  {
    var layers: seq<AvailableSystem> := [];
    if cats.economical != [] {
      layers := layers + [cats.economical[0]];
    }
    if cats.moderate != [] {
      layers := layers + [cats.moderate[0]];
    }
    if cats.premium != [] {
      layers := layers + [cats.premium[0]];
    }
    assert layers == LayerCandidates(cats);
    if |layers| < 2 {
      return None;
    }
    while |layers| < 3
      invariant |layers| >= 2
      invariant PadToThree(layers) == PadToThree(LayerCandidates(cats))
      decreases 3 - |layers|
    {
      layers := layers + [layers[|layers| - 1]];
    }
    r := Some(LayeredParams(threat, layers[0], layers[1], layers[2]));
  }

  // ---------------------------------------------------------------------------
  // priority_4_minimal
  // ---------------------------------------------------------------------------

  /** Rounds of `sys` spent on `count` threats, at its price: `cost * min(count, available)`. */
  function UnitsCost(sys: AvailableSystem, count: int): int
  {
    sys.costPerShot * Min(count, sys.missilesAvailable)
  }

  function Take3(xs: seq<AvailableSystem>): (r: seq<AvailableSystem>)
    ensures |r| == Min(3, |xs|) && r == xs[..|r|]
  {
    if |xs| <= 3 then xs else xs[..3]
  }

  /** The part of the parameter set that follows from the total cost and the total chance. */
  function MinimalResult(threat: ThreatInput, cats: Categories, constraints: OperationalConstraints,
                         totalCost: int, totalSuccess: real): (r: Params)
    requires 0.0 <= totalSuccess <= 1.0
    ensures var d := r.detail;
      && d.MinimalDetail?
      && r.cost == totalCost
      && d.mobileCount == |cats.mobileGroups| && d.droneCount == |cats.drones|
      && d.helicopterCount == (if constraints.weatherConditions == Nominal then |cats.helicopters| else 0)
      // at least one loss is accepted, and never more than the raid
      && d.acceptableLosses == Max(1, TruncToInt(threat.count as real * (1.0 - totalSuccess)))
      && 1 <= d.acceptableLosses
      && (threat.count >= 1 ==> d.acceptableLosses <= threat.count)
      && r.successRate == Percent(totalSuccess) && 0 <= r.successRate <= 100
      && r.systemsUsed == SystemValues(Take3(cats.mobileGroups + cats.drones + cats.helicopters))
      && |r.systemsUsed| <= 3
  {
    var heliCount := if constraints.weatherConditions == Nominal then |cats.helicopters| else 0;
    LossesBounded(threat.count, totalSuccess);
    var acceptableLosses := Max(1, TruncToInt(threat.count as real * (1.0 - totalSuccess)));
    Params(
      totalCost,
      Percent(totalSuccess),
      SystemValues(Take3(cats.mobileGroups + cats.drones + cats.helicopters)),
      MinimalDetail(
        |cats.mobileGroups|, |cats.drones|, heliCount, threat.targetDescription,
        constraints.expectedFollowOnWaves, threat.count, acceptableLosses))
  }

  lemma LossesBounded(count: int, success: real)
    requires 0.0 <= success <= 1.0
    ensures count >= 0 ==> TruncToInt(count as real * (1.0 - success)) <= count
  {
    if count >= 0 {
      ProductBelowFactors(1.0 - success, 1.0);
      assert count as real * (1.0 - success) <= count as real;
    }
  }

  /** The chance of the first mobile group (engaging at 2 km), or 0 without one. */
  function MobileChance(threat: ThreatInput, cats: Categories): (p: real)
    ensures 0.0 <= p <= 0.95
    ensures cats.mobileGroups == [] ==> p == 0.0
    ensures cats.mobileGroups != [] ==> p == SuccessRate(cats.mobileGroups[0].systemType, 2.0, threat.threatType, Nominal)
  {
    if cats.mobileGroups != [] then SuccessRate(cats.mobileGroups[0].systemType, 2.0, threat.threatType, Nominal) else 0.0
  }

  /** The chance of the first interceptor drone (engaging at 60% of the range), or 0 without one. */
  function DroneChance(threat: ThreatInput, cats: Categories): (p: real)
    ensures 0.0 <= p <= 0.95
    ensures cats.drones == [] ==> p == 0.0
    ensures cats.drones != [] ==> p == SuccessRate(cats.drones[0].systemType, threat.rangeKm * 0.6, threat.threatType, Nominal)
  {
    if cats.drones != [] then SuccessRate(cats.drones[0].systemType, threat.rangeKm * 0.6, threat.threatType, Nominal) else 0.0
  }

  /** The chance of the minimal option: the mobile group's, combined with the drone's when there is a drone. */
  function MinimalChance(threat: ThreatInput, cats: Categories): (p: real)
    ensures 0.0 <= p <= 1.0
    ensures MobileChance(threat, cats) <= p && DroneChance(threat, cats) <= p
    ensures cats.drones == [] ==> p == MobileChance(threat, cats)
    ensures cats.drones != [] ==> p == Union2(MobileChance(threat, cats), DroneChance(threat, cats))
  {
    var pm, pd := MobileChance(threat, cats), DroneChance(threat, cats);
    Union2Bounds(pm, pd);
    if cats.drones != [] then Union2(pm, pd) else pm
  }

  /**
   * Economical systems only: the first mobile firing group and the first
   * interceptor drone, each committed against every threat its stock
   * allows; premium and moderate systems are never allocated.
   */
  function MinimalParams(threat: ThreatInput, cats: Categories, constraints: OperationalConstraints): (r: Option<Params>)
    ensures r.None? <==> cats.mobileGroups == [] && cats.drones == []
    ensures r.Some? ==>
      && r.value.cost == (if cats.mobileGroups != [] then UnitsCost(cats.mobileGroups[0], threat.count) else 0)
                         + (if cats.drones != [] then UnitsCost(cats.drones[0], threat.count) else 0)
      && Percent(MobileChance(threat, cats)) <= r.value.successRate
      && Percent(DroneChance(threat, cats)) <= r.value.successRate
      && r.value.successRate <= 100
    ensures r.Some? ==> r.value == MinimalResult(threat, cats, constraints, r.value.cost, MinimalChance(threat, cats))
  {
    if cats.mobileGroups == [] && cats.drones == [] then None
    else
      var mobileCost := if cats.mobileGroups != [] then UnitsCost(cats.mobileGroups[0], threat.count) else 0;
      var droneCost := if cats.drones != [] then UnitsCost(cats.drones[0], threat.count) else 0;
      var total := MinimalChance(threat, cats);
      PercentMonotone(MobileChance(threat, cats), total);
      PercentMonotone(DroneChance(threat, cats), total);
      Some(MinimalResult(threat, cats, constraints, mobileCost + droneCost, total))
  }

  /** The source's accumulation: `total_cost +=`, `total_success +=`, then the union with the drone layer. */
  method ComputeMinimal(threat: ThreatInput, cats: Categories, constraints: OperationalConstraints) returns (r: Option<Params>)
    ensures r == MinimalParams(threat, cats, constraints)
  {
    var mobileCount := |cats.mobileGroups|;
    var droneCount := |cats.drones|;
    if mobileCount == 0 && droneCount == 0 {
      return None;
    }
    var totalCost := 0;
    var totalSuccess := 0.0;
    if mobileCount > 0 {
      var mobileSys := cats.mobileGroups[0];
      var mCount := Min(threat.count, mobileSys.missilesAvailable);
      totalCost := totalCost + mobileSys.costPerShot * mCount;
      totalSuccess := totalSuccess + SuccessRate(mobileSys.systemType, 2.0, threat.threatType, Nominal);
    }
    assert totalSuccess == MobileChance(threat, cats);
    assert totalCost == if mobileCount > 0 then UnitsCost(cats.mobileGroups[0], threat.count) else 0;
    if droneCount > 0 {
      var droneSys := cats.drones[0];
      var dCount := Min(threat.count, droneSys.missilesAvailable);
      totalCost := totalCost + droneSys.costPerShot * dCount;
      var successDrone := SuccessRate(droneSys.systemType, threat.rangeKm * 0.6, threat.threatType, Nominal);
      assert successDrone == DroneChance(threat, cats);
      UnionForm(totalSuccess, successDrone);
      totalSuccess := 1.0 - (1.0 - totalSuccess) * (1.0 - successDrone);
    }
    assert totalSuccess == MinimalChance(threat, cats);
    r := Some(MinimalResult(threat, cats, constraints, totalCost, totalSuccess));
  }

  // ---------------------------------------------------------------------------
  // ew_plus_kinetic_fpv
  // ---------------------------------------------------------------------------

  /** The electronic-warfare layer's fixed chance, `0.75`. */
  const EwSuccess: real := 0.75

  /**
   * Electronic warfare first (free, reusable), a kinetic system as backup:
   * the dearest moderate system, else the cheapest economical one. Only the
   * kinetic layer is costed.
   */
  function EwPlusKineticParams(threat: ThreatInput, cats: Categories): (r: Option<Params>)
    ensures r.None? <==> cats.moderate == [] && cats.economical == []
    ensures r.Some? ==>
      var kinetic := if cats.moderate != [] then cats.moderate[0] else cats.economical[0];
      var d := r.value.detail;
      && d.EwPlusKineticDetail?
      && d.kineticSystem == kinetic.systemType
      // the kinetic count is not capped by the stock
      && d.kineticCount == Max(2, threat.count / 2)
      && r.value.cost == d.kineticCost == kinetic.costPerShot * d.kineticCount
      && d.ewSuccessRate == 75
      // the kinetic layer engages at half the range; the chance is its union with the EW layer's
      && d.kineticSuccessRate == Percent(ChanceAt(threat, kinetic, 0.5))
      && d.combinedSuccess == Percent(Union2(EwSuccess, ChanceAt(threat, kinetic, 0.5)))
      && d.backupSystem == (if cats.economical != [] then cats.economical[0] else kinetic).systemType
      && r.value.successRate == d.combinedSuccess
      && 75 <= d.combinedSuccess <= 100 && d.kineticSuccessRate <= d.combinedSuccess
      && r.value.systemsUsed == [Bukovel.Value(), kinetic.systemType.Value()]
  {
    if cats.moderate == [] && cats.economical == [] then None
    else
      var kineticSys := if cats.moderate != [] then cats.moderate[0] else cats.economical[0];
      var kineticCount := Max(2, threat.count / 2);
      var kineticSuccess := ChanceAt(threat, kineticSys, 0.5);
      var combined := Union2(EwSuccess, kineticSuccess);
      Union2Percent(EwSuccess, kineticSuccess);
      var backup := if cats.economical != [] then cats.economical[0] else kineticSys;
      var kineticCost := kineticSys.costPerShot * kineticCount;
      Some(Params(
        kineticCost,
        Percent(combined),
        [Bukovel.Value(), kineticSys.systemType.Value()],
        EwPlusKineticDetail(
          threat.threatType, Percent(EwSuccess), kineticCount, kineticSys.systemType, kineticCost,
          Percent(kineticSuccess), backup.systemType, Percent(combined))))
  }

  // ---------------------------------------------------------------------------
  // coordination_with_brigade
  // ---------------------------------------------------------------------------

  /** The exception the source raises: indexing the empty premium list. */
  datatype CalcError = IndexError

  /** Request brigade support, committing one unit of the cheapest tier present. */
  function CoordinationFor(minimal: AvailableSystem, threat: ThreatInput, constraints: OperationalConstraints,
                           summary: Summary): Params
  {
    Params(
      minimal.costPerShot,
      70,
      ["Координація"],
      CoordinationDetail(
        minimal.systemType, 90, "Сусідні батареї, бригадний резерв, РЕБ підтримка", 3,
        "Координоване використання ресурсів по регіону",
        constraints.expectedFollowOnWaves, summary.totalMissiles, threat.rangeKm))
  }

  /**
   * The calculator as written: with all three tiers empty it evaluates
   * `premium[0]` and raises; its `None` guard can never be reached.
   */
  function CoordinationAsWritten(threat: ThreatInput, constraints: OperationalConstraints, summary: Summary,
                                 cats: Categories): (r: Result<Params, CalcError>)
    ensures r.Failure? <==> cats.economical == [] && cats.moderate == [] && cats.premium == []
  {
    if cats.economical != [] then Success(CoordinationFor(cats.economical[0], threat, constraints, summary))
    else if cats.moderate != [] then Success(CoordinationFor(cats.moderate[0], threat, constraints, summary))
    else if cats.premium != [] then Success(CoordinationFor(cats.premium[0], threat, constraints, summary))
    else Failure(IndexError)
  }

  /** The calculator as its guard intends: decline when no tier has a system. */
  function CoordinationParams(threat: ThreatInput, constraints: OperationalConstraints, summary: Summary,
                              cats: Categories): (r: Option<Params>)
    ensures r.None? <==> cats.economical == [] && cats.moderate == [] && cats.premium == []
    ensures r.Some? ==>
      var minimal := if cats.economical != [] then cats.economical[0]
                     else if cats.moderate != [] then cats.moderate[0] else cats.premium[0];
      && r.value.cost == minimal.costPerShot
      && r.value.successRate == 70
      && r.value.systemsUsed == ["Координація"]
      && r.value.detail.CoordinationDetail?
      && r.value.detail.allocationSystem == minimal.systemType
      && r.value.detail.totalMissiles == summary.totalMissiles
  {
    var minimal :=
      if cats.economical != [] then Some(cats.economical[0])
      else if cats.moderate != [] then Some(cats.moderate[0])
      else if cats.premium != [] then Some(cats.premium[0])
      else None;
    if minimal.None? then None else Some(CoordinationFor(minimal.value, threat, constraints, summary))
  }

  /** The corrected calculator agrees with the original wherever the original does not raise. */
  lemma CoordinationCorrection(threat: ThreatInput, constraints: OperationalConstraints, summary: Summary, cats: Categories)
    ensures CoordinationAsWritten(threat, constraints, summary, cats).Success? ==>
      CoordinationParams(threat, constraints, summary, cats) == Some(CoordinationAsWritten(threat, constraints, summary, cats).value)
    ensures CoordinationAsWritten(threat, constraints, summary, cats).Failure? ==>
      CoordinationParams(threat, constraints, summary, cats) == None
  {
  }

  // ---------------------------------------------------------------------------
  // The calculators read against the roster itself
  // ---------------------------------------------------------------------------

  /** priority_1 declines exactly when no system of the roster costs 400 000 or more. */
  lemma ImmediateDeclines(threat: ThreatInput, systems: seq<AvailableSystem>)
    ensures ImmediateParams(threat, Categorize(systems)).None? <==>
            forall i :: 0 <= i < |systems| ==> systems[i].costPerShot < PremiumThreshold
  {
    EmptyIffNone(Categorize(systems).premium, systems, IsPremium);
  }

  /**
   * Otherwise it fires the first dearest system of the whole roster, as many
   * rounds as threats but at most its stock, at that system's price per round.
   */
  lemma ImmediatePrimary(threat: ThreatInput, systems: seq<AvailableSystem>) returns (i: nat)
    requires exists k :: 0 <= k < |systems| && systems[k].costPerShot >= PremiumThreshold
    ensures IsFirstDearest(systems, i)
    ensures var r := ImmediateParams(threat, Categorize(systems));
      && r.Some?
      && r.value.detail.premiumSystem == systems[i].systemType
      && r.value.detail.missilesAllocated == Min(threat.count, systems[i].missilesAvailable)
      && r.value.cost == systems[i].costPerShot * Min(threat.count, systems[i].missilesAvailable)
  {
    EmptyIffNone(Categorize(systems).premium, systems, IsPremium);
    i := PremiumHead(systems);
  }

  /**
   * priority_2 fires only with an economical interceptor drone and a moderate
   * system; it takes the cheapest such drone and the dearest moderate system.
   */
  lemma DroneFirstOnRoster(threat: ThreatInput, systems: seq<AvailableSystem>) returns (di: nat, mi: nat)
    ensures DroneFirstParams(threat, Categorize(systems)).Some? <==>
      && (exists i :: 0 <= i < |systems| && IsEconomicalDrone(systems[i]))
      && (exists j :: 0 <= j < |systems| && IsModerate(systems[j]))
    ensures DroneFirstParams(threat, Categorize(systems)).Some? ==>
      var d := DroneFirstParams(threat, Categorize(systems)).value.detail;
      && IsFirstCheapestWhere(systems, IsEconomicalDrone, di)
      && IsFirstDearestWhere(systems, IsModerate, mi)
      && d.droneCount == Min(Max(2, threat.count), systems[di].missilesAvailable)
      && d.missileSystem == systems[mi].systemType
      && d.missileCount == Min(Max(2, threat.count / 2), systems[mi].missilesAvailable)
  {
    var cats := Categorize(systems);
    EmptyIffNone(cats.drones, systems, IsEconomicalDrone);
    EmptyIffNone(cats.moderate, systems, IsModerate);
    di, mi := 0, 0;
    if cats.drones != [] && cats.moderate != [] {
      di := DroneHead(systems);
      mi := ModerateHead(systems);
    }
  }

  /** With exactly two tiers present the third layer repeats the second. */
  lemma MultiLayerPadsSecond(threat: ThreatInput, cats: Categories)
    requires TierCount(cats) == 2
    ensures var r := MultiLayerParams(threat, cats);
      && r.Some?
      && r.value.detail.layer3.system == r.value.detail.layer2.system
      && r.value.systemsUsed[2] == r.value.systemsUsed[1]
  {
  }

  /** With all three tiers present the layers run cheapest tier first: economical, moderate, premium. */
  lemma MultiLayerOrder(threat: ThreatInput, cats: Categories)
    requires cats.economical != [] && cats.moderate != [] && cats.premium != []
    ensures var r := MultiLayerParams(threat, cats);
      && r.Some?
      && r.value.detail.layer1.system == cats.economical[0].systemType
      && r.value.detail.layer2.system == cats.moderate[0].systemType
      && r.value.detail.layer3.system == cats.premium[0].systemType
  {
  }

  /** With non-negative prices and stocks, `min_cost <= cost <= max_cost`. */
  lemma LayeredCostBounds(threat: ThreatInput, l1: AvailableSystem, l2: AvailableSystem, l3: AvailableSystem)
    requires l2.costPerShot >= 0 && l2.missilesAvailable >= 0
    requires l3.costPerShot >= 0 && l3.missilesAvailable >= 0
    ensures var r := LayeredParams(threat, l1, l2, l3);
      r.detail.minCost <= r.cost <= r.detail.maxCost
  {
    LayerCostNonNegative(l2, Max(1, threat.count / 2));
    LayerCostNonNegative(l3, Max(1, threat.count / 3));
  }

  lemma LayerCostNonNegative(sys: AvailableSystem, wanted: int)
    requires sys.costPerShot >= 0 && sys.missilesAvailable >= 0 && wanted >= 0
    ensures sys.costPerShot * Min(wanted, sys.missilesAvailable) >= 0
  {
  }

  /** The same bound for the option built from a roster of non-negative prices and stocks. */
  lemma MultiLayerCostBounds(threat: ThreatInput, systems: seq<AvailableSystem>)
    requires NonNegativeRoster(systems)
    requires MultiLayerParams(threat, Categorize(systems)).Some?
    ensures var r := MultiLayerParams(threat, Categorize(systems)).value;
      r.detail.minCost <= r.cost <= r.detail.maxCost
  {
    var candidates := LayerCandidates(Categorize(systems));
    var layers := PadToThree(candidates);
    CandidatesFromRoster(systems);
    PaddedFromCandidates(candidates);
    InRosterNonNegative(systems, layers[1]);
    InRosterNonNegative(systems, layers[2]);
    LayeredCostBounds(threat, layers[0], layers[1], layers[2]);
  }

  lemma CandidatesFromRoster(systems: seq<AvailableSystem>)
    ensures forall x :: x in LayerCandidates(Categorize(systems)) ==> x in systems
  {
    var cats := Categorize(systems);
    forall x | x in LayerCandidates(cats) ensures x in systems {
      assert x in cats.economical || x in cats.moderate || x in cats.premium;
    }
  }

  lemma PaddedFromCandidates(candidates: seq<AvailableSystem>)
    requires |candidates| >= 1
    ensures forall k :: 0 <= k < 3 ==> PadToThree(candidates)[k] in candidates
  {
    var layers := PadToThree(candidates);
    forall k | 0 <= k < 3 ensures layers[k] in candidates {
      if k >= |candidates| {
        assert layers[k] == candidates[|candidates| - 1];
      } else {
        assert layers[k] == layers[..|candidates|][k];
      }
    }
  }

  lemma InRosterNonNegative(systems: seq<AvailableSystem>, x: AvailableSystem)
    requires NonNegativeRoster(systems) && x in systems
    ensures x.costPerShot >= 0 && x.missilesAvailable >= 0
  {
  }

  /**
   * priority_4 declines exactly when the roster has no economical mobile group
   * and no economical interceptor drone.
   */
  lemma MinimalDeclines(threat: ThreatInput, systems: seq<AvailableSystem>, constraints: OperationalConstraints)
    ensures MinimalParams(threat, Categorize(systems), constraints).None? <==>
      forall i :: 0 <= i < |systems| ==> !IsEconomicalMobileGroup(systems[i]) && !IsEconomicalDrone(systems[i])
  {
    var cats := Categorize(systems);
    if cats.mobileGroups != [] {
      assert cats.mobileGroups[0] in systems;
    }
    if cats.drones != [] {
      assert cats.drones[0] in systems;
    }
    if exists i :: 0 <= i < |systems| && (IsEconomicalMobileGroup(systems[i]) || IsEconomicalDrone(systems[i])) {
      var i :| 0 <= i < |systems| && (IsEconomicalMobileGroup(systems[i]) || IsEconomicalDrone(systems[i]));
      assert systems[i] in cats.mobileGroups || systems[i] in cats.drones;
    }
  }

  /**
   * Helicopters are counted only under the exact label "Nominal", and then
   * every economical helicopter of the roster counts.
   */
  lemma MinimalHelicopters(threat: ThreatInput, systems: seq<AvailableSystem>, constraints: OperationalConstraints)
    requires MinimalParams(threat, Categorize(systems), constraints).Some?
    ensures var r := MinimalParams(threat, Categorize(systems), constraints).value;
      && r.detail.MinimalDetail?
      && r.detail.helicopterCount ==
           (if constraints.weatherConditions == Nominal then |Filter(systems, IsEconomicalHelicopter)| else 0)
  {
    HelicopterCount(systems);
  }

  /** The systems listed are at most three, and only mobile groups, drones and helicopters. */
  lemma MinimalSystemsUsed(threat: ThreatInput, systems: seq<AvailableSystem>, constraints: OperationalConstraints)
    requires MinimalParams(threat, Categorize(systems), constraints).Some?
    ensures var r := MinimalParams(threat, Categorize(systems), constraints).value;
      && |r.systemsUsed| <= 3
      && forall k :: 0 <= k < |r.systemsUsed| ==>
           r.systemsUsed[k] in {MobileGroup.Value(), InterceptorDrone.Value(), Helicopter.Value()}
  {
    LightSystemsOnly(Categorize(systems));
  }

  lemma LightSystemsOnly(cats: Categories)
    requires forall x :: x in cats.mobileGroups ==> IsMobileGroup(x)
    requires forall x :: x in cats.drones ==> IsDrone(x)
    requires forall x :: x in cats.helicopters ==> IsHelicopter(x)
    ensures var used := SystemValues(Take3(cats.mobileGroups + cats.drones + cats.helicopters));
      forall k :: 0 <= k < |used| ==> used[k] in {MobileGroup.Value(), InterceptorDrone.Value(), Helicopter.Value()}
  {
    var all := cats.mobileGroups + cats.drones + cats.helicopters;
    var used := Take3(all);
    forall k | 0 <= k < |used| ensures used[k].systemType in {MobileGroup, InterceptorDrone, Helicopter} {
      assert used[k] == all[k];
      assert all[k] in cats.mobileGroups || all[k] in cats.drones || all[k] in cats.helicopters;
    }
  }

  /**
   * The minimal option's cost counts only the rounds of the roster's first
   * cheapest economical mobile group and first cheapest economical drone (the
   * stable sort keeps the earlier of equally priced entries), never a missile tier.
   */
  lemma MinimalCostUsesEconomicalOnly(threat: ThreatInput, systems: seq<AvailableSystem>, constraints: OperationalConstraints)
    returns (m: Option<nat>, d: Option<nat>)
    requires MinimalParams(threat, Categorize(systems), constraints).Some?
    ensures m.Some? ==> IsFirstCheapestWhere(systems, IsEconomicalMobileGroup, m.value)
    ensures m.None? ==> forall i :: 0 <= i < |systems| ==> !IsEconomicalMobileGroup(systems[i])
    ensures d.Some? ==> IsFirstCheapestWhere(systems, IsEconomicalDrone, d.value)
    ensures d.None? ==> forall i :: 0 <= i < |systems| ==> !IsEconomicalDrone(systems[i])
    ensures MinimalParams(threat, Categorize(systems), constraints).value.cost ==
      (if m.Some? then UnitsCost(systems[m.value], threat.count) else 0)
      + (if d.Some? then UnitsCost(systems[d.value], threat.count) else 0)
  {
    var cats := Categorize(systems);
    if cats.mobileGroups != [] {
      var i := MobileGroupHead(systems);
      m := Some(i);
    } else {
      m := None;
      forall i | 0 <= i < |systems| ensures !IsEconomicalMobileGroup(systems[i]) {
        assert systems[i] !in cats.mobileGroups;
      }
    }
    if cats.drones != [] {
      var i := DroneHead(systems);
      d := Some(i);
    } else {
      d := None;
      forall i | 0 <= i < |systems| ensures !IsEconomicalDrone(systems[i]) {
        assert systems[i] !in cats.drones;
      }
    }
  }

  /** ew_plus_kinetic declines exactly when every system of the roster is premium. */
  lemma EwDeclinesOnlyOnAllPremium(threat: ThreatInput, systems: seq<AvailableSystem>)
    ensures EwPlusKineticParams(threat, Categorize(systems)).None? <==>
      forall i :: 0 <= i < |systems| ==> IsPremium(systems[i])
  {
    var cats := Categorize(systems);
    EmptyIffNone(cats.moderate, systems, IsModerate);
    EmptyIffNone(cats.economical, systems, IsEconomical);
  }

  /** The coordination calculator as written raises exactly on an empty roster. */
  lemma CoordinationFailsOnEmptyRoster(threat: ThreatInput, constraints: OperationalConstraints, systems: seq<AvailableSystem>)
    ensures CoordinationAsWritten(threat, constraints, Summarize(systems), Categorize(systems)).Failure? <==> systems == []
  {
    var cats := Categorize(systems);
    if systems != [] {
      var x := systems[0];
      assert x in cats.premium || x in cats.moderate || x in cats.economical;
    }
  }
}

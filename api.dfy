/**
 * The service's request side: the request records with their declared field
 * bounds, the string-to-enumeration lookups with their fallbacks, and the
 * conversion of a request into the doctrine's threat, roster and constraints.
 */
module Api {
  import opened Wrappers
  import opened Domain

  datatype ThreatRequest = ThreatRequest(
    threatType: string,
    count: int,
    rangeKm: real,
    bearing: int,
    altitudeM: int,
    speedKmh: real,
    targetDescription: string,
    targetPriority: string,
    timeToImpactMinutes: Option<real>)

  datatype SystemRequest = SystemRequest(
    systemType: string,
    count: int,
    missilesAvailable: int,
    costPerShot: int,
    effectiveRangeKm: real,
    successRate: real,
    reloadTimeMinutes: int,
    status: string,
    setupTimeMinutes: int,
    weatherDependent: bool,
    requiresVisual: bool)

  datatype ConstraintsRequest = ConstraintsRequest(
    limitedAmmunition: bool,
    friendlyForcesNearby: bool,
    civilianAreasNearby: bool,
    weatherConditions: string,
    expectedFollowOnWaves: int,
    resupplyTimeHours: int)

  datatype BatteryRequest = BatteryRequest(
    threat: ThreatRequest,
    systems: seq<SystemRequest>,
    constraints: ConstraintsRequest,
    commanderContext: string)

  // ---------------------------------------------------------------------------
  // Declared bounds
  // ---------------------------------------------------------------------------

  /** At least one threat; range, altitude and speed non-negative; bearing within a full turn. */
  predicate ValidThreat(t: ThreatRequest)
  {
    && t.count >= 1
    && t.rangeKm >= 0.0
    && 0 <= t.bearing <= 360
    && t.altitudeM >= 0
    && t.speedKmh >= 0.0
  }

  predicate ValidSystem(s: SystemRequest)
  {
    && s.count >= 1
    && s.missilesAvailable >= 0
    && s.costPerShot >= 0
    && s.effectiveRangeKm >= 0.0
    && 0.0 <= s.successRate <= 1.0
    && s.reloadTimeMinutes >= 0
  }

  predicate ValidRequest(r: BatteryRequest)
  {
    ValidThreat(r.threat) && forall i :: 0 <= i < |r.systems| ==> ValidSystem(r.systems[i])
  }

  // ---------------------------------------------------------------------------
  // Lookups
  // ---------------------------------------------------------------------------

  /** The threat lookup knows six keys; "FPV" is its own key, not the FPV member's value. */
  function ConvertThreatType(s: string): (t: ThreatType)
    ensures s == "FPV" ==> t == Fpv
    ensures t == Fpv ==> s == "FPV"
    ensures t != Fpv && t != UnknownThreat ==> s == t.Value()
    ensures t == UnknownThreat <==>
      s !in {"Shahed-136", "Shahed-131", "Geran-2", "Lancet", "FPV", "Orlan-10"}
  {
    if s == "Shahed-136" then Shahed136
    else if s == "Shahed-131" then Shahed131
    else if s == "Geran-2" then Geran2
    else if s == "Lancet" then Lancet
    else if s == "FPV" then Fpv
    else if s == "Orlan-10" then Orlan
    else UnknownThreat
  }

  /**
   * Every named threat type is recovered from its own value, except FPV,
   * whose value "FPV дрон" is not a key and falls back to unknown.
   */
  lemma ThreatTypeRoundTrip(t: ThreatType)
    ensures t != Fpv ==> ConvertThreatType(t.Value()) == t
    ensures ConvertThreatType(Fpv.Value()) == UnknownThreat
  {
  }

  /** The system lookup is keyed by the members' values and falls back to ZU-23-2. */
  function ConvertSystemType(s: string): (t: SystemType)
    ensures t.Value() == s || (t == Zu23 && forall u: SystemType :: u.Value() != s)
  {
    if s == Patriot.Value() then Patriot
    else if s == IrisT.Value() then IrisT
    else if s == BukM1.Value() then BukM1
    else if s == Stinger.Value() then Stinger
    else if s == Igla.Value() then Igla
    else if s == InterceptorDrone.Value() then InterceptorDrone
    else if s == MobileGroup.Value() then MobileGroup
    else if s == Helicopter.Value() then Helicopter
    else if s == Zu23.Value() then Zu23
    else if s == Bukovel.Value() then Bukovel
    else Zu23
  }

  lemma {:induction false} SystemTypeRoundTrip(t: SystemType)
    ensures ConvertSystemType(t.Value()) == t
  {
    var u := ConvertSystemType(t.Value());
    if u.Value() == t.Value() {
      SystemValueInjective(u, t);
    }
  }

  lemma SystemValueInjective(a: SystemType, b: SystemType)
    requires a.Value() == b.Value()
    ensures a == b
  {
    ValuesAreDistinct();
  }

  /** The priority lookup is keyed by the members' values and falls back to medium. */
  function ConvertTargetPriority(s: string): (p: TargetPriority)
    ensures p.Value() == s || (p == Medium && forall q: TargetPriority :: q.Value() != s)
  {
    if s == Critical.Value() then Critical
    else if s == High.Value() then High
    else if s == Medium.Value() then Medium
    else if s == Low.Value() then Low
    else Medium
  }

  lemma {:induction false} TargetPriorityRoundTrip(p: TargetPriority)
    ensures ConvertTargetPriority(p.Value()) == p
  {
    var q := ConvertTargetPriority(p.Value());
    if q.Value() == p.Value() {
      ValuesAreDistinct();
    }
  }

  // ---------------------------------------------------------------------------
  // Request to doctrine models
  // ---------------------------------------------------------------------------

  function ConvertSystem(s: SystemRequest): (a: AvailableSystem)
    ensures a.systemType == ConvertSystemType(s.systemType)
    ensures a.count == s.count && a.missilesAvailable == s.missilesAvailable && a.costPerShot == s.costPerShot
    ensures a.effectiveRangeKm == s.effectiveRangeKm && a.successRate == s.successRate
    ensures a.reloadTimeMinutes == s.reloadTimeMinutes && a.status == s.status
    ensures a.setupTimeMinutes == s.setupTimeMinutes
    ensures a.weatherDependent == s.weatherDependent && a.requiresVisual == s.requiresVisual
  {
    AvailableSystem(ConvertSystemType(s.systemType), s.count, s.missilesAvailable, s.costPerShot,
                    s.effectiveRangeKm, s.successRate, s.reloadTimeMinutes, s.status,
                    s.setupTimeMinutes, s.weatherDependent, s.requiresVisual)
  }

  function ConvertConstraints(c: ConstraintsRequest): (o: OperationalConstraints)
    ensures o.limitedAmmunition == c.limitedAmmunition && o.friendlyForcesNearby == c.friendlyForcesNearby
    ensures o.civilianAreasNearby == c.civilianAreasNearby && o.weatherConditions == c.weatherConditions
    ensures o.expectedFollowOnWaves == c.expectedFollowOnWaves && o.resupplyTimeHours == c.resupplyTimeHours
  {
    OperationalConstraints(c.limitedAmmunition, c.friendlyForcesNearby, c.civilianAreasNearby,
                           c.weatherConditions, c.expectedFollowOnWaves, c.resupplyTimeHours)
  }

  function ConvertThreat(t: ThreatRequest): Result<ThreatInput, ThreatError>
  {
    NewThreatInput(ConvertThreatType(t.threatType), t.count, t.rangeKm, t.bearing, t.altitudeM, t.speedKmh,
                   t.targetDescription, ConvertTargetPriority(t.targetPriority), t.timeToImpactMinutes)
  }

  datatype Models = Models(threat: ThreatInput, systems: seq<AvailableSystem>, constraints: OperationalConstraints)

  /**
   * Builds the threat (which fails only when time to impact must be derived
   * at zero speed), then the roster entry by entry, then the constraints.
   */
  method ApiToDoctrineModels(request: BatteryRequest) returns (r: Result<Models, ThreatError>)
    ensures r.Failure? <==> request.threat.timeToImpactMinutes.None? && request.threat.speedKmh == 0.0
    ensures r.Success? ==> Success(r.value.threat) == ConvertThreat(request.threat)
    ensures r.Success? ==> |r.value.systems| == |request.systems|
    ensures r.Success? ==> forall i :: 0 <= i < |request.systems| ==>
      r.value.systems[i] == ConvertSystem(request.systems[i])
    ensures r.Success? ==> r.value.constraints == ConvertConstraints(request.constraints)
  {
    var threat := ConvertThreat(request.threat);
    if threat.Failure? {
      return Failure(threat.error);
    }
    var systems := ConvertSystems(request.systems);
    r := Success(Models(threat.value, systems, ConvertConstraints(request.constraints)));
  }

  /** The roster, converted entry by entry in request order. */
  method ConvertSystems(requested: seq<SystemRequest>) returns (systems: seq<AvailableSystem>)
    ensures |systems| == |requested|
    ensures forall i :: 0 <= i < |requested| ==> systems[i] == ConvertSystem(requested[i])
  {
    systems := [];
    for i := 0 to |requested|
      invariant |systems| == i
      invariant forall k :: 0 <= k < i ==> systems[k] == ConvertSystem(requested[k])
    {
      systems := systems + [ConvertSystem(requested[i])];
    }
  }

  /** A request within the declared bounds yields a roster with non-negative prices and rounds. */
  lemma ValidRequestRosterNonNegative(request: BatteryRequest, systems: seq<AvailableSystem>)
    requires ValidRequest(request)
    requires |systems| == |request.systems|
    requires forall i :: 0 <= i < |systems| ==> systems[i] == ConvertSystem(request.systems[i])
    ensures NonNegativeRoster(systems)
  {
    forall i | 0 <= i < |systems| ensures systems[i].costPerShot >= 0 && systems[i].missilesAvailable >= 0 {
      assert ValidSystem(request.systems[i]);
    }
  }

  /**
   * The declared bounds admit speed zero, so a valid request without a time
   * to impact reaches the division by zero.
   */
  lemma ValidRequestCanDivideByZero()
    ensures var t := ThreatRequest("Shahed-136", 1, 10.0, 0, 0, 0.0, "", "Критичний", None);
      ValidThreat(t) && ConvertThreat(t).Failure?
  {
  }
}

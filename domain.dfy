/**
 * The doctrine service's vocabulary: threat classes, defensive system classes and
 * target priorities (each with the exact string value the service uses), and the
 * three input records — the threat, one roster entry, the operational constraints.
 */
module Domain {
  import opened Wrappers

  datatype ThreatType = Shahed136 | Shahed131 | Geran2 | Lancet | Fpv | Orlan | UnknownThreat
  {
    function Value(): string
    {
      match this
      case Shahed136 => "Shahed-136"
      case Shahed131 => "Shahed-131"
      case Geran2 => "Geran-2"
      case Lancet => "Lancet"
      case Fpv => "FPV дрон"
      case Orlan => "Orlan-10"
      case UnknownThreat => "Невідомо"
    }
  }

  datatype SystemType =
    | Patriot | IrisT                                  // premium missile systems
    | BukM1 | Stinger | Igla                           // moderate missile systems
    | InterceptorDrone | MobileGroup | Helicopter      // economical systems
    | Zu23 | Bukovel                                   // gun system and electronic warfare
  {
    function Value(): string
    {
      match this
      case Patriot => "Patriot"
      case IrisT => "IRIS-T"
      case BukM1 => "Buk-M1"
      case Stinger => "Stinger"
      case Igla => "Igla"
      case InterceptorDrone => "Vampire Interceptor Drone"
      case MobileGroup => "Mobile Firing Group (ЗУ-23-2)"
      case Helicopter => "Mi-8 Helicopter System"
      case Zu23 => "ЗУ-23-2"
      case Bukovel => "РЕБ Буковель"
    }
  }

  datatype TargetPriority = Critical | High | Medium | Low
  {
    function Value(): string
    {
      match this
      case Critical => "Критичний"
      case High => "Високий"
      case Medium => "Середній"
      case Low => "Низький"
    }
  }

  /** Distinct members carry distinct string values. */
  lemma ValuesAreDistinct()
    ensures forall a: ThreatType, b: ThreatType :: a.Value() == b.Value() ==> a == b
    ensures forall a: SystemType, b: SystemType :: a.Value() == b.Value() ==> a == b
    ensures forall a: TargetPriority, b: TargetPriority :: a.Value() == b.Value() ==> a == b
  {
  }

  /** A threat once constructed: its time to impact is always filled in. */
  datatype ThreatInput = ThreatInput(
    threatType: ThreatType,
    count: int,
    rangeKm: real,
    bearing: int,
    altitudeM: int,
    speedKmh: real,
    targetDescription: string,
    targetPriority: TargetPriority,
    timeToImpactMinutes: real)

  /** Python raises ZeroDivisionError when it derives time to impact at zero speed. */
  datatype ThreatError = ZeroDivision

  /**
   * Constructing a threat: a missing time to impact is derived once as
   * `range / speed * 60` minutes, which fails when the speed is zero.
   */
  function NewThreatInput(
    threatType: ThreatType, count: int, rangeKm: real, bearing: int, altitudeM: int,
    speedKmh: real, targetDescription: string, targetPriority: TargetPriority,
    timeToImpactMinutes: Option<real>): (r: Result<ThreatInput, ThreatError>)
    ensures r.Failure? <==> timeToImpactMinutes.None? && speedKmh == 0.0
    ensures r.Success? ==>
      && r.value.threatType == threatType && r.value.count == count
      && r.value.rangeKm == rangeKm && r.value.bearing == bearing
      && r.value.altitudeM == altitudeM && r.value.speedKmh == speedKmh
      && r.value.targetDescription == targetDescription
      && r.value.targetPriority == targetPriority
    ensures r.Success? && timeToImpactMinutes.Some? ==>
      r.value.timeToImpactMinutes == timeToImpactMinutes.value
    // derived: travelling `speed` km/h for `t` minutes covers the range
    ensures r.Success? && timeToImpactMinutes.None? ==>
      r.value.timeToImpactMinutes * speedKmh == rangeKm * 60.0
    ensures r.Success? && timeToImpactMinutes.None? && rangeKm >= 0.0 && speedKmh > 0.0 ==>
      r.value.timeToImpactMinutes >= 0.0
  {
    match timeToImpactMinutes
    case Some(t) =>
      Success(ThreatInput(threatType, count, rangeKm, bearing, altitudeM, speedKmh,
                          targetDescription, targetPriority, t))
    case None =>
      if speedKmh == 0.0 then Failure(ZeroDivision)
      else
        Success(ThreatInput(threatType, count, rangeKm, bearing, altitudeM, speedKmh,
                            targetDescription, targetPriority, (rangeKm / speedKmh) * 60.0))
  }

  /** One roster entry: a defensive system class on hand. */
  datatype AvailableSystem = AvailableSystem(
    systemType: SystemType,
    count: int,
    missilesAvailable: int,   // or units, for systems that are not missiles
    costPerShot: int,
    effectiveRangeKm: real,
    successRate: real,
    reloadTimeMinutes: int,
    status: string,
    setupTimeMinutes: int,
    weatherDependent: bool,
    requiresVisual: bool)

  datatype OperationalConstraints = OperationalConstraints(
    limitedAmmunition: bool,
    friendlyForcesNearby: bool,
    civilianAreasNearby: bool,
    weatherConditions: string,
    expectedFollowOnWaves: int,
    resupplyTimeHours: int)

  /** Prices and rounds are never negative (the bounds the service's request model declares). */
  predicate NonNegativeRoster(systems: seq<AvailableSystem>)
  {
    forall i :: 0 <= i < |systems| ==>
      systems[i].costPerShot >= 0 && systems[i].missilesAvailable >= 0
  }
}

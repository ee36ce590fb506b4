/** Impossible-travel detection (services/travel_detection.py): the speed
    between the user's latest located access and the current location,
    classified by two speed thresholds that can be changed at run time. The
    geodesic distance is a parameter: `geodesic(p, q)` is the great-circle
    distance in kilometres between two (lat, lng) points. */
module TravelDetection {
  import opened Wrappers
  import opened Common
  import opened DeviceAccesses
  import opened Store
  import opened AccessHistory

  /** A travel speed in km/h; simultaneous accesses travel infinitely fast. */
  datatype Speed = Finite(kmh: real) | Infinite

  /** `speed > threshold`, where infinity exceeds every threshold. */
  predicate Exceeds(s: Speed, threshold: real) {
    s.Infinite? || s.kmh > threshold
  }

  /** The elapsed time in hours between two timestamps in seconds. */
  function HoursBetween(previousTime: int, currentTime: int): real {
    (currentTime - previousTime) as real / 3600.0
  }

  /** `calculate_travel_speed` over the distance already measured. */
  function CalculateTravelSpeed(distanceKm: real, previousTime: int, currentTime: int): (r: Speed)
    ensures currentTime <= previousTime ==> r == Infinite
    ensures currentTime > previousTime ==>
      r.Finite? && r.kmh * HoursBetween(previousTime, currentTime) == distanceKm
  {
    var hours := HoursBetween(previousTime, currentTime);
    if hours <= 0.0 then Infinite else Finite(distanceKm / hours)
  }

  /** `validate_coordinates` */
  predicate ValidateCoordinates(lat: real, lng: real) {
    -90.0 <= lat <= 90.0 && -180.0 <= lng <= 180.0
  }

  /** The previous access as the analysis reports it; a simultaneous access
      reports no country or city. */
  datatype PreviousLocation = PreviousLocation(lat: real, lng: real, country: Option<string>, city: Option<string>, timestamp: int)

  /** The result of `analyze_travel_feasibility`. The reported speed,
      distance and time are exact: the rounding to two decimals is not
      modelled. */
  datatype TravelAnalysis = TravelAnalysis(
    isFeasible: bool,
    riskLevel: RiskLevel,
    speed: Speed,
    distanceKm: real,
    timeDiffHours: real,
    previous: Option<PreviousLocation>,
    reason: string)

  /** The answer when there is nothing to compare with. */
  const NoPreviousLocation: TravelAnalysis :=
    TravelAnalysis(true, Allow, Finite(0.0), 0.0, 0.0, None, "no_previous_location_data")

  /** One key of the dict `get_travel_risk_factors` returns. */
  datatype TravelFactor =
    | TravelSummary(speed: Speed, distanceKm: real, timeDiffHours: real, isFeasible: bool, riskLevel: RiskLevel)
      /** `impossible_travel` (high) or `suspicious_travel` (medium), detected. */
    | Indicator(severity: Severity)
    | GeographicContext(previousCountry: Option<string>, crossBorder: bool, intercontinental: bool)

  /** The service with its class-level thresholds in km/h; one instance
      stands for the class. */
  class TravelDetector {
    var reviewThreshold: real
    var denyThreshold: real

    ghost predicate Valid()
      reads this
    {
      0.0 < reviewThreshold < denyThreshold
    }

    constructor ()
      ensures Valid()
      ensures reviewThreshold == 1000.0 && denyThreshold == 2000.0
    {
      reviewThreshold := 1000.0;
      denyThreshold := 2000.0;
    }

    /** The verdict for a finite or infinite speed: strictly above the deny
        threshold denies, strictly above the review threshold reviews. */
    function Classify(s: Speed): (r: RiskLevel)
      reads this
      ensures r == Deny <==> Exceeds(s, denyThreshold)
      ensures r == Review <==> !Exceeds(s, denyThreshold) && Exceeds(s, reviewThreshold)
    {
      if Exceeds(s, denyThreshold) then Deny
      else if Exceeds(s, reviewThreshold) then Review
      else Allow
    }

    /** `analyze_travel_feasibility` at time `now` for an access at
        `current`. The branch for coordinates that cannot be read is not
        modelled: `CoordinatesPresent` shows it cannot be taken. */
    function AnalyzeTravelFeasibility(db: Database, userId: string, current: (real, real),
        geodesic: ((real, real), (real, real)) -> real, now: int): (r: TravelAnalysis)
      reads this, db
      ensures r.isFeasible <==> r.riskLevel == Allow
      ensures (GetLatestUserAccess(db, userId).None? || !HasLocation(GetLatestUserAccess(db, userId).value)) ==>
        r == NoPreviousLocation
      ensures GetLatestUserAccess(db, userId).Some? && HasLocation(GetLatestUserAccess(db, userId).value) ==>
        var last := GetLatestUserAccess(db, userId).value;
        r.distanceKm == geodesic(Coordinates(last).value, current) &&
        r.timeDiffHours == HoursBetween(last.timestamp, now) &&
        r.speed == CalculateTravelSpeed(r.distanceKm, last.timestamp, now) &&
        r.riskLevel == Classify(r.speed) &&
        r.previous.Some? && r.previous.value.timestamp == last.timestamp &&
        (r.previous.value.lat, r.previous.value.lng) == Coordinates(last).value
    {
      var latest := GetLatestUserAccess(db, userId);
      if latest.None? || !HasLocation(latest.value) then NoPreviousLocation
      else
        var last := latest.value;
        var coords := Coordinates(last).value;
        var distanceKm := geodesic(coords, current);
        var hours := HoursBetween(last.timestamp, now);
        if hours <= 0.0 then
          TravelAnalysis(false, Deny, Infinite, distanceKm, hours,
            Some(PreviousLocation(coords.0, coords.1, None, None, last.timestamp)), "simultaneous_access")
        else
          var speed := distanceKm / hours;
          var level := Classify(Finite(speed));
          TravelAnalysis(level == Allow, level, Finite(speed), distanceKm, hours,
            Some(PreviousLocation(coords.0, coords.1, Country(last), City(last), last.timestamp)),
            "travel_speed_analysis")
    }

    /** `get_travel_risk_factors`: the summary, one speed indicator when a
        threshold is exceeded, and the geographic context when there is a
        previous location. */
    method GetTravelRiskFactors(db: Database, userId: string, current: (real, real),
        geodesic: ((real, real), (real, real)) -> real, now: int)
      returns (factors: map<string, TravelFactor>)
      ensures var a := AnalyzeTravelFeasibility(db, userId, current, geodesic, now);
        factors.Keys <= {"travel_analysis", "impossible_travel", "suspicious_travel", "geographic_context"} &&
        "travel_analysis" in factors &&
        factors["travel_analysis"] == TravelSummary(a.speed, a.distanceKm, a.timeDiffHours, a.isFeasible, a.riskLevel) &&
        ("impossible_travel" in factors <==> Exceeds(a.speed, denyThreshold)) &&
        ("suspicious_travel" in factors <==> !Exceeds(a.speed, denyThreshold) && Exceeds(a.speed, reviewThreshold)) &&
        ("geographic_context" in factors <==> a.previous.Some?)
      ensures "impossible_travel" in factors ==> factors["impossible_travel"] == Indicator(High)
      ensures "suspicious_travel" in factors ==> factors["suspicious_travel"] == Indicator(Medium)
      ensures var a := AnalyzeTravelFeasibility(db, userId, current, geodesic, now);
        "geographic_context" in factors ==>
          factors["geographic_context"] == GeographicContext(a.previous.value.country, a.distanceKm > 100.0, a.distanceKm > 5000.0)
    {
      var analysis := AnalyzeTravelFeasibility(db, userId, current, geodesic, now);
      factors := map["travel_analysis" := TravelSummary(analysis.speed, analysis.distanceKm, analysis.timeDiffHours,
        analysis.isFeasible, analysis.riskLevel)];
      if Exceeds(analysis.speed, denyThreshold) {
        factors := factors["impossible_travel" := Indicator(High)];
      } else if Exceeds(analysis.speed, reviewThreshold) {
        factors := factors["suspicious_travel" := Indicator(Medium)];
      }
      if analysis.previous.Some? {
        factors := factors["geographic_context" := GeographicContext(analysis.previous.value.country,
          analysis.distanceKm > 100.0, analysis.distanceKm > 5000.0)];
      }
    }

    /** `update_speed_thresholds`: both thresholds are set when
        0 < review < deny, and neither is changed otherwise. */
    method UpdateSpeedThresholds(review: real, deny: real) returns (updated: bool)
      modifies this
      ensures updated <==> 0.0 < review < deny
      ensures updated ==> reviewThreshold == review && denyThreshold == deny
      ensures !updated ==> reviewThreshold == old(reviewThreshold) && denyThreshold == old(denyThreshold)
      ensures old(Valid()) ==> Valid()
    {
      if review <= 0.0 || deny <= 0.0 || review >= deny {
        return false;
      }
      reviewThreshold := review;
      denyThreshold := deny;
      return true;
    }
  }

  /** A located access always has readable coordinates. */
  lemma CoordinatesPresent(a: DeviceAccess)
    requires HasLocation(a)
    ensures Coordinates(a).Some?
  {
  }

  /** With the default thresholds the comparisons are strict: exactly 1000
      km/h allows and exactly 2000 km/h reviews. */
  lemma DefaultBoundaries(t: TravelDetector)
    requires t.reviewThreshold == 1000.0 && t.denyThreshold == 2000.0
    ensures t.Classify(Finite(1000.0)) == Allow
    ensures t.Classify(Finite(2000.0)) == Review
    ensures t.Classify(Finite(2000.5)) == Deny
    ensures t.Classify(Infinite) == Deny
  {
  }

  /** An access at the same time as the latest located one is denied, even
      without moving. */
  lemma SimultaneousIsDenied(t: TravelDetector, db: Database, userId: string, current: (real, real),
      geodesic: ((real, real), (real, real)) -> real, now: int)
    requires GetLatestUserAccess(db, userId).Some? && HasLocation(GetLatestUserAccess(db, userId).value)
    requires now <= GetLatestUserAccess(db, userId).value.timestamp
    ensures t.AnalyzeTravelFeasibility(db, userId, current, geodesic, now).riskLevel == Deny
    ensures !t.AnalyzeTravelFeasibility(db, userId, current, geodesic, now).isFeasible
    ensures t.AnalyzeTravelFeasibility(db, userId, current, geodesic, now).speed == Infinite
  {
  }

  /** With valid thresholds, the speed indicators agree with the verdict:
      `impossible_travel` is reported exactly for a DENY and
      `suspicious_travel` exactly for a REVIEW. */
  lemma IndicatorsMatchVerdict(t: TravelDetector, a: TravelAnalysis, db: Database, userId: string, current: (real, real),
      geodesic: ((real, real), (real, real)) -> real, now: int)
    requires t.Valid()
    requires a == t.AnalyzeTravelFeasibility(db, userId, current, geodesic, now)
    ensures Exceeds(a.speed, t.denyThreshold) <==> a.riskLevel == Deny
    ensures (!Exceeds(a.speed, t.denyThreshold) && Exceeds(a.speed, t.reviewThreshold)) <==> a.riskLevel == Review
  {
  }
}

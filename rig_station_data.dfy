/**
 * The rig-station mock generator: weighted random statuses for the seed records, and the
 * periodic update that nudges every sensor, reclassifies it, escalates the statuses from
 * sensors to equipment to station, and perturbs the station's environment and production.
 * Every `Math.random()` draw is a parameter; `new Date()` is the parameter `now`.
 */
module RigStationData {
  import opened SensorModel
  import opened RigTypes

  // ---------------------------------------------------------------------------
  // Weighted random statuses

  /**
   * The first of `statuses` whose running weight total, starting from `sum`, exceeds `r`;
   * `fallback` when no total does.
   */
  function WeightedPick<T>(statuses: seq<T>, weights: seq<real>, fallback: T, r: real, sum: real): T
    requires |statuses| == |weights|
    decreases |weights|
  {
    if |weights| == 0 then fallback
    else if r < sum + weights[0] then statuses[0]
    else WeightedPick(statuses[1..], weights[1..], fallback, r, sum + weights[0])
  }

  /** The for-loop both random-status helpers run over their weight arrays. */
  method PickWeighted<T>(statuses: seq<T>, weights: seq<real>, fallback: T, r: real) returns (s: T)
    requires |statuses| == |weights|
    ensures s == WeightedPick(statuses, weights, fallback, r, 0.0)
  {
    var sum := 0.0;
    var i := 0;
    while i < |weights|
      invariant 0 <= i <= |weights|
      invariant WeightedPick(statuses, weights, fallback, r, 0.0)
             == WeightedPick(statuses[i..], weights[i..], fallback, r, sum)
    {
      assert statuses[i..][1..] == statuses[i + 1..];
      assert weights[i..][1..] == weights[i + 1..];
      sum := sum + weights[i];
      if r < sum {
        return statuses[i];
      }
      i := i + 1;
    }
    return fallback;
  }

  const SensorStatuses: seq<SensorStatus> := [SensorStatus.Normal, SensorStatus.Warning, SensorStatus.Critical]
  const SensorStatusWeights: seq<real> := [0.7, 0.2, 0.1]

  /** `randomStatus`: 70% normal, 20% warning, 10% critical, by where the draw falls. */
  method RandomStatus(r: real) returns (s: SensorStatus)
    ensures r < 0.7 ==> s == SensorStatus.Normal
    ensures 0.7 <= r < 0.9 ==> s == SensorStatus.Warning
    ensures 0.9 <= r < 1.0 ==> s == SensorStatus.Critical
    ensures 1.0 <= r ==> s == SensorStatus.Normal
  {
    s := PickWeighted(SensorStatuses, SensorStatusWeights, SensorStatus.Normal, r);
    assert SensorStatusWeights[1..][1..][1..] == [];
  }

  const EquipmentStatuses: seq<EquipmentStatus> :=
    [Operational, Maintenance, Offline, EquipmentStatus.Warning, EquipmentStatus.Critical]
  const EquipmentStatusWeights: seq<real> := [0.6, 0.15, 0.05, 0.15, 0.05]

  /** `randomEquipmentStatus`: cumulative weights 0.6, 0.75, 0.8, 0.95 and 1.0. */
  method RandomEquipmentStatus(r: real) returns (s: EquipmentStatus)
    ensures r < 0.6 ==> s == Operational
    ensures 0.6 <= r < 0.75 ==> s == Maintenance
    ensures 0.75 <= r < 0.8 ==> s == Offline
    ensures 0.8 <= r < 0.95 ==> s == EquipmentStatus.Warning
    ensures 0.95 <= r < 1.0 ==> s == EquipmentStatus.Critical
    ensures 1.0 <= r ==> s == Operational
  {
    s := PickWeighted(EquipmentStatuses, EquipmentStatusWeights, Operational, r);
    assert EquipmentStatusWeights[1..][1..][1..][1..][1..] == [];
  }

  // ---------------------------------------------------------------------------
  // Random values

  /** `randomValue(lo, hi)`: a draw scaled into `[lo, hi)`, rounded to two decimals. */
  function RandomValue(lo: real, hi: real, r: real): real {
    Round2(r * (hi - lo) + lo)
  }

  lemma ScaledDrawInRange(lo: real, hi: real, r: real)
    requires lo <= hi && IsDraw(r)
    ensures lo <= r * (hi - lo) + lo <= hi
  {
    MulNonNegative(r, hi - lo);
    MulNonNegative(1.0 - r, hi - lo);
  }

  /** For a non-empty interval, the value lies between the rounded ends. */
  lemma RandomValueInRange(lo: real, hi: real, r: real)
    requires lo <= hi && IsDraw(r)
    ensures Round2(lo) <= RandomValue(lo, hi, r) <= Round2(hi)
  {
    var x := r * (hi - lo) + lo;
    assert RandomValue(lo, hi, r) == Round2(x);
    ScaledDrawInRange(lo, hi, r);
    Round2Monotone(lo, x);
    Round2Monotone(x, hi);
  }

  // ---------------------------------------------------------------------------
  // Sensor update

  /** Each rig tick moves a sensor by at most 5% of its range, before clamping. */
  const RigFluctuation: real := 0.05

  /** The nudged and clamped value, before it is rounded for storage. */
  function RigPerturbed(s: SensorData, r: real): (v: real)
    ensures s.min <= s.max ==> s.min <= v <= s.max
  {
    var fluctuation := (s.max - s.min) * RigFluctuation;
    Clamp(s.value + RandomValue(-fluctuation, fluctuation, r), s.min, s.max)
  }

  /** One sensor of one rig tick: only value, status and timestamp change. */
  function UpdateRigSensor(s: SensorData, r: real, now: int): (u: SensorData)
    ensures u == s.(value := u.value, status := u.status, timestamp := now)
    ensures u.value == Round2(RigPerturbed(s, r))
    ensures u.status == Classify(RigPerturbed(s, r), s.min, s.max)
    ensures s.min <= s.max ==> Round2(s.min) <= u.value <= Round2(s.max)
  {
    var newValue := RigPerturbed(s, r);
    Round2InRange(newValue, s.min, s.max);
    s.(value := Round2(newValue), status := Classify(newValue, s.min, s.max), timestamp := now)
  }

  /** When the bounds have at most two decimals, the stored value itself lies in `[min, max]`. */
  lemma UpdateRigSensorInBounds(s: SensorData, r: real, now: int)
    requires s.min <= s.max && IsCents(s.min) && IsCents(s.max)
    ensures s.min <= UpdateRigSensor(s, r, now).value <= s.max
  {
    Round2KeepsCents(s.min);
    Round2KeepsCents(s.max);
  }

  /** A symmetric random nudge stays within its bound, up to the rounding to cents. */
  lemma RandomValueNear(f: real, r: real)
    requires f >= 0.0 && IsDraw(r)
    ensures -f - 0.005 <= RandomValue(-f, f, r) <= f + 0.005
  {
    ScaledDrawInRange(-f, f, r);
  }

  /** From a value inside its range, one tick moves it by at most 5% of the range (plus rounding). */
  lemma RigNudgeBounded(s: SensorData, r: real)
    requires s.min <= s.value <= s.max && IsDraw(r)
    ensures -(s.max - s.min) * RigFluctuation - 0.005 <= RigPerturbed(s, r) - s.value
    ensures RigPerturbed(s, r) - s.value <= (s.max - s.min) * RigFluctuation + 0.005
  {
    var f := (s.max - s.min) * RigFluctuation;
    MulNonNegative(s.max - s.min, RigFluctuation);
    RandomValueNear(f, r);
    ClampStaysNear(s.value, RandomValue(-f, f, r), s.min, s.max, f + 0.005);
  }

  // ---------------------------------------------------------------------------
  // Status escalation

  /**
   * Worst-of escalation with sticky overrides: any critical child makes the parent critical,
   * otherwise any warning child makes it warning, otherwise a parent under maintenance or
   * offline keeps that status and any other parent becomes operational.
   */
  function Escalate(previous: EquipmentStatus, hasCritical: bool, hasWarning: bool): (s: EquipmentStatus)
    ensures s == EquipmentStatus.Critical <==> hasCritical
    ensures s == EquipmentStatus.Warning <==> !hasCritical && hasWarning
    ensures s == Maintenance <==> !hasCritical && !hasWarning && previous == Maintenance
    ensures s == Offline <==> !hasCritical && !hasWarning && previous == Offline
    ensures s == Operational <==> !hasCritical && !hasWarning && previous != Maintenance && previous != Offline
  {
    if hasCritical then EquipmentStatus.Critical
    else if hasWarning then EquipmentStatus.Warning
    else if previous != Maintenance && previous != Offline then Operational
    else previous
  }

  predicate AnySensor(sensors: seq<SensorData>, st: SensorStatus) {
    exists i :: 0 <= i < |sensors| && sensors[i].status == st
  }

  predicate AnyEquipment(equipment: seq<Equipment>, st: EquipmentStatus) {
    exists j :: 0 <= j < |equipment| && equipment[j].status == st
  }

  /** The equipment's new status from its updated sensors. */
  function EquipmentStatusFrom(previous: EquipmentStatus, sensors: seq<SensorData>): EquipmentStatus {
    Escalate(previous, AnySensor(sensors, SensorStatus.Critical), AnySensor(sensors, SensorStatus.Warning))
  }

  /** The station's new status from its updated equipment, by the same rule. */
  function StationStatusFrom(previous: EquipmentStatus, equipment: seq<Equipment>): EquipmentStatus {
    Escalate(previous, AnyEquipment(equipment, EquipmentStatus.Critical), AnyEquipment(equipment, EquipmentStatus.Warning))
  }

  // A reference definition of "worst of": rank each child, take the maximum rank.

  function SensorSeverity(s: SensorStatus): nat {
    match s
    case Normal => 0
    case Warning => 1
    case Critical => 2
  }

  function EquipmentSeverity(s: EquipmentStatus): nat {
    match s
    case Critical => 2
    case Warning => 1
    case _ => 0
  }

  function Worst(ranks: seq<nat>): nat {
    if |ranks| == 0 then 0
    else if ranks[0] >= Worst(ranks[1..]) then ranks[0]
    else Worst(ranks[1..])
  }

  /** The parent status for the worst child rank. */
  function FromWorst(previous: EquipmentStatus, worst: nat): EquipmentStatus {
    if worst >= 2 then EquipmentStatus.Critical
    else if worst == 1 then EquipmentStatus.Warning
    else if previous == Maintenance || previous == Offline then previous
    else Operational
  }

  lemma {:induction false} WorstIsMaximum(ranks: seq<nat>)
    requires forall i :: 0 <= i < |ranks| ==> ranks[i] <= 2
    ensures Worst(ranks) <= 2
    ensures Worst(ranks) == 2 <==> exists i :: 0 <= i < |ranks| && ranks[i] == 2
    ensures Worst(ranks) >= 1 <==> exists i :: 0 <= i < |ranks| && ranks[i] >= 1
  {
    if |ranks| > 0 {
      WorstIsMaximum(ranks[1..]);
      if exists i :: 0 <= i < |ranks[1..]| && ranks[1..][i] == 2 {
        var i :| 0 <= i < |ranks[1..]| && ranks[1..][i] == 2;
        assert ranks[i + 1] == 2;
      }
      if exists i :: 0 <= i < |ranks[1..]| && ranks[1..][i] >= 1 {
        var i :| 0 <= i < |ranks[1..]| && ranks[1..][i] >= 1;
        assert ranks[i + 1] >= 1;
      }
      if exists i :: 0 <= i < |ranks| && ranks[i] >= 1 {
        var i :| 0 <= i < |ranks| && ranks[i] >= 1;
        if i > 0 {
          assert ranks[1..][i - 1] >= 1;
        }
      }
      if exists i :: 0 <= i < |ranks| && ranks[i] == 2 {
        var i :| 0 <= i < |ranks| && ranks[i] == 2;
        if i > 0 {
          assert ranks[1..][i - 1] == 2;
        }
      }
    }
  }

  /** Equipment status is the status of its worst sensor, with the sticky overrides. */
  lemma EquipmentStatusIsWorstOf(previous: EquipmentStatus, sensors: seq<SensorData>)
    ensures EquipmentStatusFrom(previous, sensors)
         == FromWorst(previous, Worst(seq(|sensors|, i requires 0 <= i < |sensors| => SensorSeverity(sensors[i].status))))
  {
    var ranks := seq(|sensors|, i requires 0 <= i < |sensors| => SensorSeverity(sensors[i].status));
    var hasCritical := AnySensor(sensors, SensorStatus.Critical);
    var hasWarning := AnySensor(sensors, SensorStatus.Warning);
    WorstIsMaximum(ranks);
    var worst := Worst(ranks);
    assert (worst == 2) == hasCritical by {
      if hasCritical {
        var i :| 0 <= i < |sensors| && sensors[i].status == SensorStatus.Critical;
        assert ranks[i] == 2;
      }
      if worst == 2 {
        var i :| 0 <= i < |ranks| && ranks[i] == 2;
        assert sensors[i].status == SensorStatus.Critical;
      }
    }
    assert (worst >= 1) == (hasCritical || hasWarning) by {
      if hasWarning {
        var i :| 0 <= i < |sensors| && sensors[i].status == SensorStatus.Warning;
        assert ranks[i] >= 1;
      }
      if worst >= 1 {
        var i :| 0 <= i < |ranks| && ranks[i] >= 1;
        assert sensors[i].status != SensorStatus.Normal;
      }
    }
  }

  /** Station status is the status of its worst equipment, by the same rule. */
  lemma StationStatusIsWorstOf(previous: EquipmentStatus, equipment: seq<Equipment>)
    ensures StationStatusFrom(previous, equipment)
         == FromWorst(previous, Worst(seq(|equipment|, j requires 0 <= j < |equipment| => EquipmentSeverity(equipment[j].status))))
  {
    var ranks := seq(|equipment|, j requires 0 <= j < |equipment| => EquipmentSeverity(equipment[j].status));
    var hasCritical := AnyEquipment(equipment, EquipmentStatus.Critical);
    var hasWarning := AnyEquipment(equipment, EquipmentStatus.Warning);
    WorstIsMaximum(ranks);
    var worst := Worst(ranks);
    assert (worst == 2) == hasCritical by {
      if hasCritical {
        var j :| 0 <= j < |equipment| && equipment[j].status == EquipmentStatus.Critical;
        assert ranks[j] == 2;
      }
      if worst == 2 {
        var j :| 0 <= j < |ranks| && ranks[j] == 2;
        assert equipment[j].status == EquipmentStatus.Critical;
      }
    }
    assert (worst >= 1) == (hasCritical || hasWarning) by {
      if hasWarning {
        var j :| 0 <= j < |equipment| && equipment[j].status == EquipmentStatus.Warning;
        assert ranks[j] >= 1;
      }
      if worst >= 1 {
        var j :| 0 <= j < |ranks| && ranks[j] >= 1;
        assert equipment[j].status == EquipmentStatus.Warning || equipment[j].status == EquipmentStatus.Critical;
      }
    }
  }

  /** Re-escalating over the same children changes nothing. */
  lemma EscalateIsStable(previous: EquipmentStatus, hasCritical: bool, hasWarning: bool)
    ensures Escalate(Escalate(previous, hasCritical, hasWarning), hasCritical, hasWarning)
         == Escalate(previous, hasCritical, hasWarning)
  {
  }

  // ---------------------------------------------------------------------------
  // Station update

  /** The draws one station consumes, in the order the generator consumes them. */
  datatype EnvironmentDraws = EnvironmentDraws(
    windSpeed: real, humidity: real, temperature: real, pressure: real, seismicActivity: real)

  datatype ProductionDraws = ProductionDraws(
    oilProduction: real, gasProduction: real, waterProduction: real, efficiency: real)

  /** `sensors[j][k]` is the draw for sensor `k` of equipment `j`. */
  datatype StationDraws = StationDraws(
    sensors: seq<seq<real>>, environment: EnvironmentDraws, production: ProductionDraws)

  predicate StationDrawsFit(st: RigStation, d: StationDraws) {
    && |d.sensors| == |st.equipment|
    && forall j :: 0 <= j < |st.equipment| ==> |d.sensors[j]| == |st.equipment[j].sensors|
  }

  predicate DrawsFit(stations: seq<RigStation>, draws: seq<StationDraws>) {
    && |draws| == |stations|
    && forall i :: 0 <= i < |stations| ==> StationDrawsFit(stations[i], draws[i])
  }

  /** One equipment of one tick: its sensors are updated, then its status is escalated. */
  function UpdateEquipment(e: Equipment, draws: seq<real>, now: int): (u: Equipment)
    requires |draws| == |e.sensors|
    ensures u == e.(sensors := u.sensors, status := u.status)
    ensures |u.sensors| == |e.sensors|
    ensures forall k :: 0 <= k < |e.sensors| ==> u.sensors[k] == UpdateRigSensor(e.sensors[k], draws[k], now)
    ensures u.status == EquipmentStatusFrom(e.status, u.sensors)
  {
    var sensors := seq(|e.sensors|, k requires 0 <= k < |e.sensors| => UpdateRigSensor(e.sensors[k], draws[k], now));
    e.(sensors := sensors, status := EquipmentStatusFrom(e.status, sensors))
  }

  /** Relative noise on the environment: each field is drawn from a band around its current value. */
  function UpdateEnvironment(env: EnvironmentalData, d: EnvironmentDraws): EnvironmentalData {
    EnvironmentalData(
      RandomValue(env.windSpeed * 0.9, env.windSpeed * 1.1, d.windSpeed),
      RandomValue(env.humidity * 0.95, env.humidity * 1.05, d.humidity),
      RandomValue(env.temperature * 0.95, env.temperature * 1.05, d.temperature),
      RandomValue(env.pressure * 0.99, env.pressure * 1.01, d.pressure),
      RandomValue(0.0, env.seismicActivity * 1.5, d.seismicActivity))
  }

  function UpdateProduction(p: ProductionData, d: ProductionDraws): ProductionData {
    ProductionData(
      RandomValue(p.oilProduction * 0.95, p.oilProduction * 1.05, d.oilProduction),
      RandomValue(p.gasProduction * 0.95, p.gasProduction * 1.05, d.gasProduction),
      RandomValue(p.waterProduction * 0.95, p.waterProduction * 1.05, d.waterProduction),
      RandomValue(p.efficiency * 0.98, p.efficiency * 1.02, d.efficiency))
  }

  /** For non-negative readings, each new field lies in its band around the old one (rounded ends). */
  lemma EnvironmentStaysInBands(env: EnvironmentalData, d: EnvironmentDraws)
    requires env.windSpeed >= 0.0 && env.humidity >= 0.0 && env.temperature >= 0.0
    requires env.pressure >= 0.0 && env.seismicActivity >= 0.0
    requires IsDraw(d.windSpeed) && IsDraw(d.humidity) && IsDraw(d.temperature)
    requires IsDraw(d.pressure) && IsDraw(d.seismicActivity)
    ensures var u := UpdateEnvironment(env, d);
      && Round2(env.windSpeed * 0.9) <= u.windSpeed <= Round2(env.windSpeed * 1.1)
      && Round2(env.humidity * 0.95) <= u.humidity <= Round2(env.humidity * 1.05)
      && Round2(env.temperature * 0.95) <= u.temperature <= Round2(env.temperature * 1.05)
      && Round2(env.pressure * 0.99) <= u.pressure <= Round2(env.pressure * 1.01)
      && 0.0 <= u.seismicActivity <= Round2(env.seismicActivity * 1.5)
  {
    RandomValueInRange(env.windSpeed * 0.9, env.windSpeed * 1.1, d.windSpeed);
    RandomValueInRange(env.humidity * 0.95, env.humidity * 1.05, d.humidity);
    RandomValueInRange(env.temperature * 0.95, env.temperature * 1.05, d.temperature);
    RandomValueInRange(env.pressure * 0.99, env.pressure * 1.01, d.pressure);
    RandomValueInRange(0.0, env.seismicActivity * 1.5, d.seismicActivity);
    Round2KeepsCents(0.0);
  }

  lemma ProductionStaysInBands(p: ProductionData, d: ProductionDraws)
    requires p.oilProduction >= 0.0 && p.gasProduction >= 0.0
    requires p.waterProduction >= 0.0 && p.efficiency >= 0.0
    requires IsDraw(d.oilProduction) && IsDraw(d.gasProduction)
    requires IsDraw(d.waterProduction) && IsDraw(d.efficiency)
    ensures var u := UpdateProduction(p, d);
      && Round2(p.oilProduction * 0.95) <= u.oilProduction <= Round2(p.oilProduction * 1.05)
      && Round2(p.gasProduction * 0.95) <= u.gasProduction <= Round2(p.gasProduction * 1.05)
      && Round2(p.waterProduction * 0.95) <= u.waterProduction <= Round2(p.waterProduction * 1.05)
      && Round2(p.efficiency * 0.98) <= u.efficiency <= Round2(p.efficiency * 1.02)
  {
    RandomValueInRange(p.oilProduction * 0.95, p.oilProduction * 1.05, d.oilProduction);
    RandomValueInRange(p.gasProduction * 0.95, p.gasProduction * 1.05, d.gasProduction);
    RandomValueInRange(p.waterProduction * 0.95, p.waterProduction * 1.05, d.waterProduction);
    RandomValueInRange(p.efficiency * 0.98, p.efficiency * 1.02, d.efficiency);
  }

  /** One station of one tick. */
  function UpdateStation(st: RigStation, d: StationDraws, now: int): (u: RigStation)
    requires StationDrawsFit(st, d)
    ensures u == st.(equipment := u.equipment, status := u.status,
                     environmentalData := u.environmentalData, productionData := u.productionData)
    ensures |u.equipment| == |st.equipment|
    ensures forall j :: 0 <= j < |st.equipment| ==> u.equipment[j] == UpdateEquipment(st.equipment[j], d.sensors[j], now)
    ensures u.status == StationStatusFrom(st.status, u.equipment)
    ensures u.environmentalData == UpdateEnvironment(st.environmentalData, d.environment)
    ensures u.productionData == UpdateProduction(st.productionData, d.production)
  {
    var equipment := seq(|st.equipment|, j requires 0 <= j < |st.equipment| => UpdateEquipment(st.equipment[j], d.sensors[j], now));
    st.(equipment := equipment,
        status := StationStatusFrom(st.status, equipment),
        environmentalData := UpdateEnvironment(st.environmentalData, d.environment),
        productionData := UpdateProduction(st.productionData, d.production))
  }

  /**
   * `generateUpdatedSensorData`: one tick over the seed stations (the caller passes the
   * seed itself, never a previous tick's output).
   */
  function GenerateUpdatedSensorData(seed: seq<RigStation>, draws: seq<StationDraws>, now: int): (r: seq<RigStation>)
    requires DrawsFit(seed, draws)
    ensures |r| == |seed|
    ensures forall i :: 0 <= i < |seed| ==> r[i] == UpdateStation(seed[i], draws[i], now)
  {
    seq(|seed|, i requires 0 <= i < |seed| => UpdateStation(seed[i], draws[i], now))
  }

  // ---------------------------------------------------------------------------
  // Properties of a whole tick

  /** The identifying and fixed parts of a sensor, equipment and station agree. */
  predicate SameSensorShape(a: SensorData, b: SensorData) {
    a.id == b.id && a.name == b.name && a.unit == b.unit && a.min == b.min && a.max == b.max
  }

  predicate SameEquipmentShape(a: Equipment, b: Equipment) {
    && a.id == b.id && a.name == b.name && a.kind == b.kind && a.location == b.location
    && a.healthScore == b.healthScore
    && a.lastMaintenance == b.lastMaintenance && a.nextMaintenance == b.nextMaintenance
    && |a.sensors| == |b.sensors|
    && forall k :: 0 <= k < |a.sensors| ==> SameSensorShape(a.sensors[k], b.sensors[k])
  }

  predicate SameStationShape(a: RigStation, b: RigStation) {
    && a.id == b.id && a.name == b.name && a.location == b.location
    && a.crew == b.crew && a.safetyStatus == b.safetyStatus
    && |a.equipment| == |b.equipment|
    && forall j :: 0 <= j < |a.equipment| ==> SameEquipmentShape(a.equipment[j], b.equipment[j])
  }

  /** A tick keeps the number and order of stations, equipment and sensors, and their fixed fields. */
  lemma GenerateKeepsShape(seed: seq<RigStation>, draws: seq<StationDraws>, now: int)
    requires DrawsFit(seed, draws)
    ensures var r := GenerateUpdatedSensorData(seed, draws, now);
      |r| == |seed| && forall i :: 0 <= i < |seed| ==> SameStationShape(seed[i], r[i])
  {
  }

  /**
   * After a tick every sensor's status is the band of its clamped value, every stored value
   * lies between its rounded bounds, and every sensor is stamped with `now`.
   */
  lemma GenerateClampsAndClassifies(seed: seq<RigStation>, draws: seq<StationDraws>, now: int,
                                    i: nat, j: nat, k: nat)
    requires DrawsFit(seed, draws)
    requires i < |seed| && j < |seed[i].equipment| && k < |seed[i].equipment[j].sensors|
    ensures var s := seed[i].equipment[j].sensors[k];
      var u := GenerateUpdatedSensorData(seed, draws, now)[i].equipment[j].sensors[k];
      && u.status == Classify(RigPerturbed(s, draws[i].sensors[j][k]), s.min, s.max)
      && (s.min <= s.max ==> Round2(s.min) <= u.value <= Round2(s.max))
      && u.timestamp == now
  {
  }

  /** After a tick every equipment and station status follows the escalation rule. */
  lemma GenerateEscalates(seed: seq<RigStation>, draws: seq<StationDraws>, now: int, i: nat, j: nat)
    requires DrawsFit(seed, draws)
    requires i < |seed| && j < |seed[i].equipment|
    ensures var st := GenerateUpdatedSensorData(seed, draws, now)[i];
      && st.equipment[j].status == EquipmentStatusFrom(seed[i].equipment[j].status, st.equipment[j].sensors)
      && st.status == StationStatusFrom(seed[i].status, st.equipment)
  {
  }
}

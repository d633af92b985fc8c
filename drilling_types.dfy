/**
 * The drilling records: a sensor channel with its recent trend, directional and formation
 * readings, the depth and parameter logs, and one well with all of its channels.
 */
module DrillingTypes {
  import opened SensorModel

  /** A sensor reading plus its recent values, most recent last (an absent trend is empty). */
  datatype DrillingSensor = DrillingSensor(
    id: string,
    name: string,
    value: real,
    unit: string,
    status: SensorStatus,
    timestamp: int,
    min: real,
    max: real,
    trend: seq<real>)

  datatype DirectionalData = DirectionalData(
    inclination: real,
    azimuth: real,
    toolFace: real,
    northSouth: real,
    eastWest: real)

  datatype FormationData = FormationData(
    lithology: string,
    porosity: real,
    permeability: real,
    resistivity: real,
    gammaRay: real,
    density: real)

  /** Depth against time, as two parallel arrays. */
  datatype DepthLog = DepthLog(depth: seq<real>, timestamp: seq<int>)

  /**
   * A parameter against depth and time, as three parallel arrays; `values` is the array the
   * record keeps under the parameter's own key (`rop`, `wob`, `torque` or `rpm`).
   */
  datatype ParameterLog = ParameterLog(depth: seq<real>, timestamp: seq<int>, values: seq<real>)

  datatype WellStatus = Drilling | Tripping | Casing | Cementing | Standby | Complete

  /** The window of history a chart shows; kept by the drilling store and passed to the chart. */
  datatype Timeframe = LastHour | LastSixHours | LastDay

  datatype WellDrillingData = WellDrillingData(
    wellId: string,
    wellName: string,
    status: WellStatus,
    currentDepth: real,         // metres
    targetDepth: real,
    startDate: int,
    estimatedCompletionDate: int,
    elapsedTime: real,          // hours
    remainingTime: real,
    // drilling parameters
    rop: DrillingSensor,
    wob: DrillingSensor,
    torque: DrillingSensor,
    rpm: DrillingSensor,
    // mud system
    mudFlowRate: DrillingSensor,
    mudDensity: DrillingSensor,
    mudTemperature: DrillingSensor,
    mudViscosity: DrillingSensor,
    // pressures
    downholePressure: DrillingSensor,
    annularPressure: DrillingSensor,
    standpipePressure: DrillingSensor,
    casingPressure: DrillingSensor,
    // mechanical
    hookLoad: DrillingSensor,
    blockPosition: DrillingSensor,
    pumpRate: DrillingSensor,
    // vibration
    axialVibration: DrillingSensor,
    lateralVibration: DrillingSensor,
    torsionalVibration: DrillingSensor,
    directionalData: DirectionalData,
    formationData: FormationData,
    // bit
    bitType: string,
    bitSize: real,
    bitTotalFootage: real,
    bitHours: real,
    // drilling fluid
    fluidType: string,
    fluidPH: real,
    fluidSolidsContent: real,
    // gas
    methaneLevel: DrillingSensor,
    hydrogenSulfideLevel: DrillingSensor,
    // history for the charts
    depthLog: DepthLog,
    ropLog: ParameterLog,
    wobLog: ParameterLog,
    torqueLog: ParameterLog,
    rpmLog: ParameterLog)
}

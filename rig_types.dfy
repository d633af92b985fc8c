/**
 * The rig-station records: sensors, equipment, stations, alerts and maintenance tasks.
 * Status strings become closed enumerations; ISO timestamps become integer milliseconds;
 * calendar dates that are only displayed stay strings.
 */
module RigTypes {
  import opened Wrappers
  import opened SensorModel

  datatype SensorData = SensorData(
    id: string,
    name: string,
    value: real,
    unit: string,
    status: SensorStatus,
    timestamp: int,
    min: real,
    max: real)

  /** Status of a piece of equipment and of a whole station. */
  datatype EquipmentStatus = Operational | Maintenance | Offline | Warning | Critical

  datatype Equipment = Equipment(
    id: string,
    name: string,
    kind: string,               // the record's `type` field
    status: EquipmentStatus,
    lastMaintenance: string,
    nextMaintenance: string,
    healthScore: real,
    location: string,
    sensors: seq<SensorData>)

  datatype Location = Location(latitude: real, longitude: real, name: string)

  datatype EnvironmentalData = EnvironmentalData(
    windSpeed: real,
    humidity: real,
    temperature: real,
    pressure: real,
    seismicActivity: real)

  datatype SafetyStatus = SafetyStatus(
    gasLeakDetection: bool,
    fireDetection: bool,
    emergencySystemsActive: bool,
    complianceScore: real,
    lastInspection: string,
    nextInspection: string)

  datatype ProductionData = ProductionData(
    oilProduction: real,
    gasProduction: real,
    waterProduction: real,
    efficiency: real)

  datatype Shifts = Shifts(current: string, next: string)

  datatype Crew = Crew(onsite: int, capacity: int, shifts: Shifts)

  datatype RigStation = RigStation(
    id: string,
    name: string,
    location: Location,
    status: EquipmentStatus,
    equipment: seq<Equipment>,
    environmentalData: EnvironmentalData,
    safetyStatus: SafetyStatus,
    productionData: ProductionData,
    crew: Crew)

  datatype AlertType = Info | Warning | Critical

  datatype AlertNotification = AlertNotification(
    id: string,
    title: string,
    message: string,
    kind: AlertType,            // the record's `type` field
    timestamp: int,
    read: bool,
    relatedEquipment: Option<string>)

  datatype TaskPriority = Low | Medium | High | Critical

  datatype TaskStatus = Scheduled | InProgress | Completed | Delayed

  datatype MaintenanceTask = MaintenanceTask(
    id: string,
    equipmentId: string,
    title: string,
    description: string,
    priority: TaskPriority,
    status: TaskStatus,
    scheduledDate: string,
    assignedTo: seq<string>,
    estimatedDuration: real)    // hours
}

/** The records the dashboard passes around: vital-sign samples, status tiers and patients. */
module Health {

  /** One reading of the four monitored channels, stamped with the instant it was taken. */
  datatype VitalSigns = VitalSigns(
    heartRate: real,         // beats per minute
    respirationRate: real,   // breaths per minute
    oxygenSaturation: real,  // SpO2, percent
    temperature: real,       // degrees Fahrenheit
    timestamp: int)          // milliseconds since the epoch

  /** The four channels, for the views that pick one of them by name. */
  datatype Channel = HeartRate | RespirationRate | OxygenSaturation | Temperature

  /** The value of channel `c` in sample `v` (the source's `vital[vitalType]`). */
  function Reading(v: VitalSigns, c: Channel): real {
    match c
    case HeartRate => v.heartRate
    case RespirationRate => v.respirationRate
    case OxygenSaturation => v.oxygenSaturation
    case Temperature => v.temperature
  }

  /** The three severity tiers a patient can be in. */
  datatype PatientStatus = Normal | Warning | Critical

  /** The string a status is carried as in the user interface and its filters. */
  function StatusName(s: PatientStatus): string {
    match s
    case Normal => "normal"
    case Warning => "warning"
    case Critical => "critical"
  }

  /** Severity order: Critical above Warning above Normal. */
  function Severity(s: PatientStatus): nat {
    match s
    case Normal => 0
    case Warning => 1
    case Critical => 2
  }

  /**
   * A patient record. `vitals` is the rolling history, oldest first; `status` and
   * `anomalyDetected` are derived from `currentVitals`; `lastUpdated` is in milliseconds.
   */
  datatype Patient = Patient(
    id: string,
    name: string,
    age: real,
    roomNumber: string,
    status: PatientStatus,
    vitals: seq<VitalSigns>,
    currentVitals: VitalSigns,
    anomalyDetected: bool,
    lastUpdated: int)
}

/** The canonical (Avro) sensor event that the collector publishes and the aggregator consumes. */
module SensorEvents {
  import opened Wrappers
  import opened JavaLang

  const NANOS_PER_SECOND: int := 1_000_000_000
  /** `Instant.MIN.getEpochSecond()` and `Instant.MAX.getEpochSecond()`. */
  const INSTANT_MIN_SECOND: int := -31557014167219200
  const INSTANT_MAX_SECOND: int := 31556889864403199

  /** A `java.time.Instant`, written as nanoseconds since the epoch; `isAfter` is `>`. */
  type Instant = n: int | INSTANT_MIN_SECOND * NANOS_PER_SECOND <= n < (INSTANT_MAX_SECOND + 1) * NANOS_PER_SECOND
    witness 0

  /** The payload union of `SensorEventAvro`; equality is the records' structural `equals`. */
  datatype SensorPayloadAvro =
    | MotionSensorAvro(linkQuality: Int, motion: bool, voltage: Int)
    | TemperatureSensorAvro(temperatureC: Int, temperatureF: Int)
    | LightSensorAvro(linkQuality: Int, luminosity: Int)
    | ClimateSensorAvro(temperatureC: Int, humidity: Int, co2Level: Int)
    | SwitchSensorAvro(state: bool)

  /** `SensorEventAvro`. The ids are nullable (the aggregator tests them) and the payload may be
      left unset (the collector does so for a message without a payload). */
  datatype SensorEventAvro = SensorEventAvro(
    id: Option<string>,
    hubId: Option<string>,
    timestamp: Instant,
    payload: Option<SensorPayloadAvro>)

  /** The closed set of sensor kinds, shared by the wire and canonical payload unions. */
  datatype SensorKind = Motion | Temperature | Light | Climate | Switch

  function KindOf(p: SensorPayloadAvro): SensorKind
  {
    match p
    case MotionSensorAvro(_, _, _) => Motion
    case TemperatureSensorAvro(_, _) => Temperature
    case LightSensorAvro(_, _) => Light
    case ClimateSensorAvro(_, _, _) => Climate
    case SwitchSensorAvro(_) => Switch
  }
}

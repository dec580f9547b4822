/** The collector's translation of a gRPC sensor message into the canonical Avro event
    (`ProtoToAvroSensorEventMapper.toAvro`). */
module CollectorMapper {
  import opened Wrappers
  import opened JavaLang
  import opened SensorEvents

  /** `google.protobuf.Timestamp`: an int64 second count and an int32 nanosecond adjustment. */
  datatype TimestampProto = TimestampProto(seconds: Long, nanos: Int)

  /** The `payload` oneof of `SensorEventProto`, with its `PAYLOAD_NOT_SET` case. */
  datatype SensorPayloadProto =
    | MotionSensorProto(linkQuality: Int, motion: bool, voltage: Int)
    | TemperatureSensorProto(temperatureC: Int, temperatureF: Int)
    | LightSensorProto(linkQuality: Int, luminosity: Int)
    | ClimateSensorProto(temperatureC: Int, humidity: Int, co2Level: Int)
    | SwitchSensorProto(state: bool)
    | PayloadNotSet

  /** `SensorEventProto`; protobuf getters never return null, so the ids are plain strings. */
  datatype SensorEventProto = SensorEventProto(
    id: string,
    hubId: string,
    timestamp: TimestampProto,
    payload: SensorPayloadProto)

  /** What `Instant.ofEpochSecond(seconds, nanos)` may throw. */
  datatype MapperError =
    | ArithmeticOverflow   // `Math.addExact` of the seconds and the whole seconds in `nanos`
    | DateTimeOutOfRange   // outside `Instant.MIN` .. `Instant.MAX`

  function ProtoKind(p: SensorPayloadProto): Option<SensorKind>
  {
    match p
    case MotionSensorProto(_, _, _) => Some(Motion)
    case TemperatureSensorProto(_, _) => Some(Temperature)
    case LightSensorProto(_, _) => Some(Light)
    case ClimateSensorProto(_, _, _) => Some(Climate)
    case SwitchSensorProto(_) => Some(Switch)
    case PayloadNotSet => None
  }

  /** `Instant.ofEpochSecond`: the whole seconds of `nanos` (a floor division) are added to
      `seconds` with an overflow check, and the sum must lie in the range of `Instant`. */
  function OfEpochSecond(seconds: Long, nanos: Int): (r: Result<Instant, MapperError>)
    ensures r.Ok? <==> INSTANT_MIN_SECOND <= seconds + nanos / NANOS_PER_SECOND <= INSTANT_MAX_SECOND
    ensures r.Ok? ==> r.value == seconds * NANOS_PER_SECOND + nanos
    ensures r == Err(ArithmeticOverflow) <==> !(LONG_MIN <= seconds + nanos / NANOS_PER_SECOND <= LONG_MAX)
  {
    var secs := seconds + nanos / NANOS_PER_SECOND;
    var nos := nanos % NANOS_PER_SECOND;
    if !(LONG_MIN <= secs <= LONG_MAX) then Err(ArithmeticOverflow)
    else if secs < INSTANT_MIN_SECOND || secs > INSTANT_MAX_SECOND then Err(DateTimeOutOfRange)
    else
      assert secs * NANOS_PER_SECOND + nos == seconds * NANOS_PER_SECOND + nanos;
      Ok(secs * NANOS_PER_SECOND + nos)
  }

  /** The payload-case switch: each sensor case becomes the Avro record of the same kind built
      from the same fields; `PAYLOAD_NOT_SET` leaves the payload unset. */
  function ToAvroPayload(p: SensorPayloadProto): Option<SensorPayloadAvro>
  {
    match p
    case MotionSensorProto(linkQuality, motion, voltage) => Some(MotionSensorAvro(linkQuality, motion, voltage))
    case TemperatureSensorProto(c, f) => Some(TemperatureSensorAvro(c, f))
    case LightSensorProto(linkQuality, luminosity) => Some(LightSensorAvro(linkQuality, luminosity))
    case ClimateSensorProto(c, humidity, co2) => Some(ClimateSensorAvro(c, humidity, co2))
    case SwitchSensorProto(state) => Some(SwitchSensorAvro(state))
    case PayloadNotSet => None
  }

  /** The inverse direction, used to state that the switch copies every field unchanged. */
  function FromAvroPayload(p: Option<SensorPayloadAvro>): SensorPayloadProto
  {
    match p
    case None => PayloadNotSet
    case Some(MotionSensorAvro(linkQuality, motion, voltage)) => MotionSensorProto(linkQuality, motion, voltage)
    case Some(TemperatureSensorAvro(c, f)) => TemperatureSensorProto(c, f)
    case Some(LightSensorAvro(linkQuality, luminosity)) => LightSensorProto(linkQuality, luminosity)
    case Some(ClimateSensorAvro(c, humidity, co2)) => ClimateSensorProto(c, humidity, co2)
    case Some(SwitchSensorAvro(state)) => SwitchSensorProto(state)
  }

  /** `toAvro`: the ids are copied, the timestamp becomes the instant `seconds` + `nanos`, and the
      payload goes through the exhaustive switch. The only failure is the timestamp's. */
  function ToAvro(proto: SensorEventProto): (r: Result<SensorEventAvro, MapperError>)
    ensures r.Ok? <==> INSTANT_MIN_SECOND <= proto.timestamp.seconds + proto.timestamp.nanos / NANOS_PER_SECOND <= INSTANT_MAX_SECOND
    ensures r.Err? ==> r.error == OfEpochSecond(proto.timestamp.seconds, proto.timestamp.nanos).error
    ensures r.Ok? ==> r.value.id == Some(proto.id) && r.value.hubId == Some(proto.hubId)
    ensures r.Ok? ==> r.value.timestamp == proto.timestamp.seconds * NANOS_PER_SECOND + proto.timestamp.nanos
    ensures r.Ok? ==> FromAvroPayload(r.value.payload) == proto.payload
    ensures r.Ok? ==> (r.value.payload.None? <==> proto.payload.PayloadNotSet?)
  {
    match OfEpochSecond(proto.timestamp.seconds, proto.timestamp.nanos)
    case Err(e) => Err(e)
    case Ok(instant) =>
      PayloadRoundTrip(proto.payload);
      Ok(SensorEventAvro(Some(proto.id), Some(proto.hubId), instant, ToAvroPayload(proto.payload)))
  }

  /** Every case of the switch copies its fields unchanged: the translation is undone by
      `FromAvroPayload`, and every canonical payload (or its absence) is reached. */
  lemma PayloadRoundTrip(p: SensorPayloadProto)
    ensures FromAvroPayload(ToAvroPayload(p)) == p
    ensures forall q :: ToAvroPayload(FromAvroPayload(q)) == q
  {
  }

  /** Each sensor case yields the same-kind variant, and only `PAYLOAD_NOT_SET` yields none. */
  lemma PayloadKeepsKind(p: SensorPayloadProto)
    ensures ToAvroPayload(p).Some? <==> ProtoKind(p).Some?
    ensures ToAvroPayload(p).Some? ==> KindOf(ToAvroPayload(p).value) == ProtoKind(p).value
  {
  }

  /** `PAYLOAD_NOT_SET` is accepted: with an in-range timestamp the call returns an event whose
      payload is unset. */
  lemma NoPayloadDoesNotFail(proto: SensorEventProto)
    requires proto.payload.PayloadNotSet?
    requires INSTANT_MIN_SECOND <= proto.timestamp.seconds + proto.timestamp.nanos / NANOS_PER_SECOND <= INSTANT_MAX_SECOND
    ensures ToAvro(proto).Ok? && ToAvro(proto).value.payload.None?
  {
  }
}

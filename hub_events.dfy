/** The canonical (Avro) hub lifecycle event consumed by the analyzer. */
module HubEvents {
  import opened SensorEvents

  /** `ScenarioConditionAvro`, reduced to the field the analyzer reads. */
  datatype ScenarioConditionAvro = ScenarioConditionAvro(sensorId: string)

  /** `DeviceActionAvro`, reduced to the field the analyzer reads. */
  datatype DeviceActionAvro = DeviceActionAvro(sensorId: string)

  /** The payload union of `HubEventAvro`. */
  datatype HubEventPayloadAvro =
    | DeviceAddedEventAvro(id: string)
    | DeviceRemovedEventAvro(id: string)
    | ScenarioAddedEventAvro(name: string, conditions: seq<ScenarioConditionAvro>, actions: seq<DeviceActionAvro>)
    | ScenarioRemovedEventAvro(name: string)

  datatype HubEventAvro = HubEventAvro(hubId: string, timestamp: Instant, payload: HubEventPayloadAvro)

  /** `event.getPayload().getClass().getSimpleName()`. */
  function PayloadTypeName(p: HubEventPayloadAvro): string
  {
    match p
    case DeviceAddedEventAvro(_) => "DeviceAddedEventAvro"
    case DeviceRemovedEventAvro(_) => "DeviceRemovedEventAvro"
    case ScenarioAddedEventAvro(_, _, _) => "ScenarioAddedEventAvro"
    case ScenarioRemovedEventAvro(_) => "ScenarioRemovedEventAvro"
  }
}

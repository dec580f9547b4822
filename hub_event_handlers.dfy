/** The analyzer's registry of sensors and scenarios and the three hub-event handlers that update
    it: device removal, scenario addition and scenario removal. */
module HubEventHandlers {
  import opened Wrappers
  import opened HubEvents

  /** A row of the sensor repository. */
  datatype SensorRow = SensorRow(id: string, hubId: string)

  /** A row of the scenario repository; the handlers save no condition or action rows. */
  datatype ScenarioRow = ScenarioRow(hubId: string, name: string)

  /** `SensorRepository.existsByIdInAndHubId(ids, hubId)`, whose query is not part of this model:
      any answer computed from the sensor rows, the id list and the hub id. */
  type ExistsQuery = (set<SensorRow>, seq<string>, string) -> bool

  /** The contents of both repositories. Scenario rows form a multiset: `save` inserts a row with
      a fresh generated id and no unique constraint on (hub id, name) is assumed, so two rows may
      share that key. */
  datatype Store = Store(sensors: set<SensorRow>, scenarios: multiset<ScenarioRow>)

  /** What a handler may throw. */
  datatype HandlerError =
    | DevicesNotFound   // IllegalArgumentException from the scenario-added check
    | ClassCast         // the payload is not of the handler's type
    | NonUniqueResult   // a single-result query matched several rows

  /** The handler components the analyzer registers. */
  datatype Handler = DeviceRemovedEventHandler | ScenarioAddedEventHandler | ScenarioRemovedEventHandler

  /** `getEventType`: the simple class name of the payload the handler accepts. */
  function EventType(h: Handler): (r: string)
    ensures PayloadTypeName(DeviceRemovedEventAvro("")) == r <==> h.DeviceRemovedEventHandler?
    ensures PayloadTypeName(ScenarioAddedEventAvro("", [], [])) == r <==> h.ScenarioAddedEventHandler?
    ensures PayloadTypeName(ScenarioRemovedEventAvro("")) == r <==> h.ScenarioRemovedEventHandler?
  {
    match h
    case DeviceRemovedEventHandler => "DeviceRemovedEventAvro"
    case ScenarioAddedEventHandler => "ScenarioAddedEventAvro"
    case ScenarioRemovedEventHandler => "ScenarioRemovedEventAvro"
  }

  /** Number of scenario rows with the key (hubId, name). */
  function ScenarioCount(s: Store, hubId: string, name: string): nat
  {
    s.scenarios[ScenarioRow(hubId, name)]
  }

  /** `stream().map(getSensorId).toList()`: the sensor id of each element, in order. */
  function SensorIds<T>(xs: seq<T>, sensorId: T -> string): (ids: seq<string>)
    ensures |ids| == |xs| && forall i :: 0 <= i < |xs| ==> ids[i] == sensorId(xs[i])
  {
    if xs == [] then [] else [sensorId(xs[0])] + SensorIds(xs[1..], sensorId)
  }

  /** The sensor ids referenced by a scenario's conditions. */
  function ConditionSensorIds(cs: seq<ScenarioConditionAvro>): seq<string>
  {
    SensorIds(cs, (c: ScenarioConditionAvro) => c.sensorId)
  }

  /** The sensor ids referenced by a scenario's actions. */
  function ActionSensorIds(acts: seq<DeviceActionAvro>): seq<string>
  {
    SensorIds(acts, (a: DeviceActionAvro) => a.sensorId)
  }

  /** `DeviceRemovedEventHandler.handle`: `deleteByIdAndHubId(payload id, event hub id)`. */
  function DeviceRemoved(s: Store, event: HubEventAvro): (r: Result<Store, HandlerError>)
    ensures r.Err? <==> !event.payload.DeviceRemovedEventAvro?
    ensures r.Ok? ==> r.value.scenarios == s.scenarios
    ensures r.Ok? ==> forall row :: row in r.value.sensors <==>
      row in s.sensors && !(row.id == event.payload.id && row.hubId == event.hubId)
  {
    match event.payload
    case DeviceRemovedEventAvro(id) => Ok(s.(sensors := s.sensors - {SensorRow(id, event.hubId)}))
    case _ => Err(ClassCast)
  }

  /** `ScenarioRemovedEventHandler.handle`: look the scenario up by (event hub id, payload name)
      and, if found, delete by that key; the single-result lookup throws when several rows match. */
  function ScenarioRemoved(s: Store, event: HubEventAvro): (r: Result<Store, HandlerError>)
    ensures r == Err(ClassCast) <==> !event.payload.ScenarioRemovedEventAvro?
    ensures r == Err(NonUniqueResult) <==>
      event.payload.ScenarioRemovedEventAvro? && ScenarioCount(s, event.hubId, event.payload.name) > 1
    ensures r.Ok? ==> r.value.sensors == s.sensors
    ensures r.Ok? ==> ScenarioCount(r.value, event.hubId, event.payload.name) == 0
    ensures r.Ok? ==> forall row :: row != ScenarioRow(event.hubId, event.payload.name) ==>
      r.value.scenarios[row] == s.scenarios[row]
  {
    match event.payload
    case ScenarioRemovedEventAvro(name) =>
      var key := ScenarioRow(event.hubId, name);
      if s.scenarios[key] > 1 then Err(NonUniqueResult)
      else if s.scenarios[key] == 1 then Ok(s.(scenarios := s.scenarios[key := 0]))
      else Ok(s)
    case _ => Err(ClassCast)
  }

  /** `ScenarioAddedEventHandler.handle`, literally: both id lists must pass the existence query;
      the prior-scenario lookup passes (name, hub id) into the (hub id, name) query, so the row
      deleted is the one keyed (payload name, event hub id), and that lookup throws when several
      rows match; then the row (event hub id, payload name) is saved. */
  function ScenarioAdded(s: Store, event: HubEventAvro, sensorsExist: ExistsQuery): (r: Result<Store, HandlerError>)
    ensures r == Err(ClassCast) <==> !event.payload.ScenarioAddedEventAvro?
    ensures event.payload.ScenarioAddedEventAvro? ==>
      (r == Err(DevicesNotFound) <==>
        !sensorsExist(s.sensors, ConditionSensorIds(event.payload.conditions), event.hubId)
        || !sensorsExist(s.sensors, ActionSensorIds(event.payload.actions), event.hubId))
    ensures r == Err(NonUniqueResult) <==>
      && event.payload.ScenarioAddedEventAvro?
      && sensorsExist(s.sensors, ConditionSensorIds(event.payload.conditions), event.hubId)
      && sensorsExist(s.sensors, ActionSensorIds(event.payload.actions), event.hubId)
      && ScenarioCount(s, event.payload.name, event.hubId) > 1
    ensures r.Ok? ==> r.value.sensors == s.sensors
    ensures r.Ok? ==>
      var p := event.payload;
      var saved, swapped := ScenarioRow(event.hubId, p.name), ScenarioRow(p.name, event.hubId);
      && r.value.scenarios[swapped] == (if swapped == saved then 1 else 0)
      && (swapped != saved ==> r.value.scenarios[saved] == s.scenarios[saved] + 1)
      && forall row :: row != saved && row != swapped ==> r.value.scenarios[row] == s.scenarios[row]
  {
    match event.payload
    case ScenarioAddedEventAvro(name, conditions, actions) =>
      if !sensorsExist(s.sensors, ConditionSensorIds(conditions), event.hubId)
         || !sensorsExist(s.sensors, ActionSensorIds(actions), event.hubId)
      then Err(DevicesNotFound)
      else
        var prior := ScenarioRow(name, event.hubId);
        if s.scenarios[prior] > 1 then Err(NonUniqueResult)
        else
          var afterDelete := if s.scenarios[prior] == 1 then s.scenarios[prior := 0] else s.scenarios;
          Ok(s.(scenarios := afterDelete + multiset{ScenarioRow(event.hubId, name)}))
    case _ => Err(ClassCast)
  }

  /** `handle` of the given handler. */
  function Handle(h: Handler, s: Store, event: HubEventAvro, sensorsExist: ExistsQuery): Result<Store, HandlerError>
  {
    match h
    case DeviceRemovedEventHandler => DeviceRemoved(s, event)
    case ScenarioAddedEventHandler => ScenarioAdded(s, event, sensorsExist)
    case ScenarioRemovedEventHandler => ScenarioRemoved(s, event)
  }

  /** A handler given a payload of its own type never fails the cast: device removal always
      succeeds, scenario removal fails only on a non-unique key, and scenario addition only on
      missing devices or a non-unique swapped key. */
  lemma HandleMatchingPayload(h: Handler, s: Store, event: HubEventAvro, sensorsExist: ExistsQuery)
    requires EventType(h) == PayloadTypeName(event.payload)
    ensures Handle(h, s, event, sensorsExist) != Err(ClassCast)
    ensures h.DeviceRemovedEventHandler? ==> Handle(h, s, event, sensorsExist).Ok?
    ensures h.ScenarioRemovedEventHandler? ==>
      (Handle(h, s, event, sensorsExist).Err? <==> ScenarioCount(s, event.hubId, event.payload.name) > 1)
    ensures Handle(h, s, event, sensorsExist).Err? ==>
      Handle(h, s, event, sensorsExist).error == NonUniqueResult
      || (h.ScenarioAddedEventHandler? && Handle(h, s, event, sensorsExist).error == DevicesNotFound)
  {
  }

  /** Removing a device twice leaves the registry as removing it once, and removing an absent
      device changes nothing. */
  lemma DeviceRemovedIdempotent(s: Store, event: HubEventAvro)
    requires event.payload.DeviceRemovedEventAvro?
    ensures DeviceRemoved(DeviceRemoved(s, event).value, event) == DeviceRemoved(s, event)
    ensures SensorRow(event.payload.id, event.hubId) !in s.sensors ==> DeviceRemoved(s, event) == Ok(s)
  {
    var row := SensorRow(event.payload.id, event.hubId);
    assert s.sensors - {row} - {row} == s.sensors - {row};
    if row !in s.sensors {
      assert s.sensors - {row} == s.sensors;
    }
  }

  /** Removing a scenario twice leaves the registry as removing it once, and removing an absent
      scenario is a silent no-op. */
  lemma ScenarioRemovedIdempotent(s: Store, event: HubEventAvro)
    requires event.payload.ScenarioRemovedEventAvro?
    ensures ScenarioRemoved(s, event).Ok? ==>
      ScenarioRemoved(ScenarioRemoved(s, event).value, event) == ScenarioRemoved(s, event)
    ensures ScenarioCount(s, event.hubId, event.payload.name) == 0 ==> ScenarioRemoved(s, event) == Ok(s)
  {
  }

  /** Because of the reversed lookup, a scenario added under a name different from its hub id
      does not replace an existing scenario with the same key: both rows remain, and from then on
      removing that scenario throws. */
  lemma ScenarioAddedKeepsSameKeyScenario(s: Store, event: HubEventAvro, sensorsExist: ExistsQuery)
    requires event.payload.ScenarioAddedEventAvro? && event.payload.name != event.hubId
    requires ScenarioCount(s, event.hubId, event.payload.name) == 1
    requires ScenarioAdded(s, event, sensorsExist).Ok?
    ensures ScenarioCount(ScenarioAdded(s, event, sensorsExist).value, event.hubId, event.payload.name) == 2
    ensures ScenarioRemoved(ScenarioAdded(s, event, sensorsExist).value,
      HubEventAvro(event.hubId, event.timestamp, ScenarioRemovedEventAvro(event.payload.name))) == Err(NonUniqueResult)
  {
  }

  /** The repositories, updated in place by the handlers. */
  class Repositories {
    var sensors: set<SensorRow>
    var scenarios: multiset<ScenarioRow>
    const existsByIdInAndHubId: ExistsQuery

    function Contents(): Store
      reads this
    {
      Store(sensors, scenarios)
    }

    constructor (sensors: set<SensorRow>, scenarios: multiset<ScenarioRow>, existsByIdInAndHubId: ExistsQuery)
      ensures Contents() == Store(sensors, scenarios) && this.existsByIdInAndHubId == existsByIdInAndHubId
    {
      this.sensors := sensors;
      this.scenarios := scenarios;
      this.existsByIdInAndHubId := existsByIdInAndHubId;
    }

    /** `SensorRepository.deleteByIdAndHubId`. */
    method DeleteSensorByIdAndHubId(id: string, hubId: string)
      modifies this
      ensures sensors == old(sensors) - {SensorRow(id, hubId)} && scenarios == old(scenarios)
    {
      sensors := sensors - {SensorRow(id, hubId)};
    }

    /** `ScenarioRepository.findByHubIdAndName`, a derived query returning `Optional`: empty for
        no row, the row for one, and `IncorrectResultSizeDataAccessException` for several. */
    method FindScenarioByHubIdAndName(hubId: string, name: string) returns (r: Result<Option<ScenarioRow>, HandlerError>)
      ensures r.Err? <==> scenarios[ScenarioRow(hubId, name)] > 1
      ensures r.Err? ==> r.error == NonUniqueResult
      ensures r.Ok? ==> (r.value.Some? <==> scenarios[ScenarioRow(hubId, name)] == 1)
      ensures r.Ok? && r.value.Some? ==> r.value.value == ScenarioRow(hubId, name)
    {
      var count := scenarios[ScenarioRow(hubId, name)];
      if count > 1 {
        r := Err(NonUniqueResult);
      } else if count == 1 {
        r := Ok(Some(ScenarioRow(hubId, name)));
      } else {
        r := Ok(None);
      }
    }

    /** `ScenarioRepository.deleteByHubIdAndName`: every row with that key goes. */
    method DeleteScenarioByHubIdAndName(hubId: string, name: string)
      modifies this
      ensures scenarios == old(scenarios)[ScenarioRow(hubId, name) := 0] && sensors == old(sensors)
    {
      scenarios := scenarios[ScenarioRow(hubId, name) := 0];
    }

    /** `ScenarioRepository.save` of a new scenario: one more row. */
    method SaveScenario(row: ScenarioRow)
      modifies this
      ensures scenarios == old(scenarios) + multiset{row} && sensors == old(sensors)
    {
      scenarios := scenarios + multiset{row};
    }
  }

  /** `handle` of handler `h`, run against the repositories; a thrown exception is `Fail`. */
  method HandleEvent(h: Handler, repos: Repositories, event: HubEventAvro) returns (r: Outcome<HandlerError>)
    modifies repos
    ensures r.Pass? <==> Handle(h, old(repos.Contents()), event, repos.existsByIdInAndHubId).Ok?
    ensures r.Pass? ==> repos.Contents() == Handle(h, old(repos.Contents()), event, repos.existsByIdInAndHubId).value
    ensures r.Fail? ==> Handle(h, old(repos.Contents()), event, repos.existsByIdInAndHubId) == Err(r.error)
    ensures r.Fail? ==> repos.Contents() == old(repos.Contents())
  {
    match h {
      case DeviceRemovedEventHandler =>
        if !event.payload.DeviceRemovedEventAvro? {
          return Fail(ClassCast);
        }
        repos.DeleteSensorByIdAndHubId(event.payload.id, event.hubId);
        r := Pass;
      case ScenarioRemovedEventHandler =>
        if !event.payload.ScenarioRemovedEventAvro? {
          return Fail(ClassCast);
        }
        var scenarioOpt := repos.FindScenarioByHubIdAndName(event.hubId, event.payload.name);
        if scenarioOpt.Err? {
          return Fail(scenarioOpt.error);
        }
        if scenarioOpt.value.Some? {
          repos.DeleteScenarioByHubIdAndName(event.hubId, scenarioOpt.value.value.name);
        }
        r := Pass;
      case ScenarioAddedEventHandler =>
        if !event.payload.ScenarioAddedEventAvro? {
          return Fail(ClassCast);
        }
        var payload := event.payload;
        var conditionSensorIds := ConditionSensorIds(payload.conditions);
        var actionSensorIds := ActionSensorIds(payload.actions);
        if !repos.existsByIdInAndHubId(repos.sensors, conditionSensorIds, event.hubId)
           || !repos.existsByIdInAndHubId(repos.sensors, actionSensorIds, event.hubId) {
          return Fail(DevicesNotFound);
        }
        // the arguments are passed as (name, hub id) to the (hub id, name) query
        var scenario := repos.FindScenarioByHubIdAndName(payload.name, event.hubId);
        if scenario.Err? {
          return Fail(scenario.error);
        }
        if scenario.value.Some? {
          repos.DeleteScenarioByHubIdAndName(scenario.value.value.hubId, scenario.value.value.name);
        }
        repos.SaveScenario(ScenarioRow(event.hubId, payload.name));
        r := Pass;
    }
  }
}

/** The aggregator's fold of one sensor event into the in-memory map from hub id to snapshot
    (`SnapshotAggregator.updateState`). */
module SnapshotAggregation {
  import opened Wrappers
  import opened SensorEvents

  /** `SensorStateAvro`: the latest reading of one sensor. */
  datatype SensorStateAvro = SensorStateAvro(timestamp: Instant, data: Option<SensorPayloadAvro>)

  /** `SensorsSnapshotAvro`: the latest state of every sensor of one hub. */
  datatype SensorsSnapshotAvro = SensorsSnapshotAvro(
    hubId: string,
    timestamp: Instant,
    sensorsState: map<string, SensorStateAvro>)

  /** What `updateState` does with an event: returns `Optional.empty()`, returns the updated
      snapshot, or throws because the stored state has no data (`getData().equals` on null). */
  datatype UpdateOutcome = Discarded | Updated(snapshot: SensorsSnapshotAvro) | NullPointer

  /** The aggregator's invariant: every snapshot carries the hub id it is stored under. */
  ghost predicate KeyedByHub(snapshots: map<string, SensorsSnapshotAvro>)
  {
    forall h :: h in snapshots ==> snapshots[h].hubId == h
  }

  /** The stored state, if any, of `sensor` on `hub`. */
  function StoredState(snapshots: map<string, SensorsSnapshotAvro>, hub: string, sensor: string): Option<SensorStateAvro>
  {
    if hub in snapshots && sensor in snapshots[hub].sensorsState then Some(snapshots[hub].sensorsState[sensor])
    else None
  }

  /** The verdict on an event before the snapshot is touched: accept it, discard it, or throw
      on stored data that is null. */
  datatype Verdict = Accept | Discard | NullData

  /** The accept/discard rule for an event with both ids present: a stored state strictly newer
      than the event discards it, and so does stored data equal to the event's payload. */
  function Decide(stored: Option<SensorStateAvro>, e: SensorEventAvro): (r: Verdict)
    requires e.hubId.Some? && e.id.Some?
    ensures r == NullData <==> stored.Some? && stored.value.timestamp <= e.timestamp && stored.value.data.None?
    ensures r == Discard <==> stored.Some? && (stored.value.timestamp > e.timestamp || (stored.value.data.Some? && stored.value.data == e.payload))
    ensures r == Accept <==> stored.None? || (stored.value.timestamp <= e.timestamp && stored.value.data.Some? && stored.value.data != e.payload)
  {
    if stored.None? then Accept
    else if stored.value.timestamp > e.timestamp then Discard
    else if stored.value.data.None? then NullData
    else if stored.value.data == e.payload then Discard
    else Accept
  }

  /** The effect of `updateState` on the snapshot map, and what it returns. */
  function Update(snapshots: map<string, SensorsSnapshotAvro>, event: Option<SensorEventAvro>): (r: (map<string, SensorsSnapshotAvro>, UpdateOutcome))
    // a null event or a null id changes nothing and returns empty
    ensures event.None? || event.value.hubId.None? || event.value.id.None? ==> r == (snapshots, Discarded)
    // every call that does not return a snapshot leaves the map as it was
    ensures !r.1.Updated? ==> r.0 == snapshots
    // an event is accepted exactly when no stored state is newer and the stored data differs
    ensures event.Some? && event.value.hubId.Some? && event.value.id.Some? ==>
      var e, hub, sensor := event.value, event.value.hubId.value, event.value.id.value;
      var stored := StoredState(snapshots, hub, sensor);
      (r.1.Updated? <==> stored.None? || (stored.value.timestamp <= e.timestamp && stored.value.data.Some? && stored.value.data != e.payload))
    ensures r.1.Updated? ==>
      var e, hub, sensor, s := event.value, event.value.hubId.value, event.value.id.value, r.1.snapshot;
      // the returned snapshot is the stored one, under the event's hub id
      && r.0 == snapshots[hub := s]
      && (KeyedByHub(snapshots) ==> s.hubId == hub && KeyedByHub(r.0))
      // the sensor now holds the event's timestamp and payload
      && sensor in s.sensorsState && s.sensorsState[sensor] == SensorStateAvro(e.timestamp, e.payload)
      // the snapshot's own timestamp is the event's, not a maximum over the stored states
      && s.timestamp == e.timestamp
      // the hub's other sensors keep their states
      && s.sensorsState.Keys == (if hub in snapshots then snapshots[hub].sensorsState.Keys else {}) + {sensor}
      && (forall x :: x in s.sensorsState && x != sensor ==> s.sensorsState[x] == snapshots[hub].sensorsState[x])
  {
    if event.None? || event.value.hubId.None? || event.value.id.None? then (snapshots, Discarded)
    else
      var e, hub, sensor := event.value, event.value.hubId.value, event.value.id.value;
      var snapshot := if hub in snapshots then snapshots[hub] else SensorsSnapshotAvro(hub, e.timestamp, map[]);
      match Decide(StoredState(snapshots, hub, sensor), e)
      case Accept =>
        var updated := SensorsSnapshotAvro(snapshot.hubId, e.timestamp,
                                           snapshot.sensorsState[sensor := SensorStateAvro(e.timestamp, e.payload)]);
        (snapshots[hub := updated], Updated(updated))
      case Discard => (snapshots, Discarded)
      case NullData => (snapshots, NullPointer)
  }

  /** Redelivery is harmless: the second application of an event returns no snapshot and leaves
      the map as the first application left it. */
  lemma UpdateIdempotent(snapshots: map<string, SensorsSnapshotAvro>, event: Option<SensorEventAvro>)
    ensures var (once, _) := Update(snapshots, event);
            var (twice, second) := Update(once, event);
            twice == once && !second.Updated?
  {
  }

  /** Replaying any sequence of events returns a snapshot for at most as many events as it has. */
  function Replay(snapshots: map<string, SensorsSnapshotAvro>, events: seq<Option<SensorEventAvro>>): (r: (map<string, SensorsSnapshotAvro>, nat))
    ensures r.1 <= |events|
    ensures KeyedByHub(snapshots) ==> KeyedByHub(r.0)
    decreases |events|
  {
    if events == [] then (snapshots, 0)
    else
      var (next, outcome) := Update(snapshots, events[0]);
      var (last, emitted) := Replay(next, events[1..]);
      (last, emitted + if outcome.Updated? then 1 else 0)
  }

  /** Delivering every event of a sequence twice in a row emits no more snapshots, and ends in
      the same map, as delivering it once. */
  lemma {:induction false} ReplayDuplicatedIsReplay(snapshots: map<string, SensorsSnapshotAvro>, events: seq<Option<SensorEventAvro>>)
    ensures Replay(snapshots, Doubled(events)) == Replay(snapshots, events)
    decreases |events|
  {
    if events != [] {
      var d := Doubled(events);
      assert d[0] == events[0] && d[1] == events[0];
      assert d[1..][1..] == Doubled(events[1..]);
      var (once, _) := Update(snapshots, events[0]);
      UpdateIdempotent(snapshots, events[0]);
      ReplayDuplicatedIsReplay(once, events[1..]);
    }
  }

  /** Each event of `events` followed by a copy of itself (an at-least-once redelivery). */
  function Doubled<T>(events: seq<T>): (r: seq<T>)
    ensures |r| == 2 * |events|
  {
    if events == [] then [] else [events[0], events[0]] + Doubled(events[1..])
  }

  /** The aggregator: the `snapshots` field, updated in place by `updateState`. */
  class SnapshotAggregator {
    var snapshots: map<string, SensorsSnapshotAvro>

    ghost predicate Valid()
      reads this
    {
      KeyedByHub(snapshots)
    }

    constructor ()
      ensures Valid() && snapshots == map[]
    {
      snapshots := map[];
    }

    /** `updateState`: `computeIfAbsent` an empty snapshot for the hub, compare with the stored
        state of the sensor, and on acceptance `put` the updated snapshot and return it. */
    method UpdateState(event: Option<SensorEventAvro>) returns (r: UpdateOutcome)
      requires Valid()
      modifies this
      ensures Valid()
      ensures (snapshots, r) == Update(old(snapshots), event)
    {
      if event.None? || event.value.hubId.None? || event.value.id.None? {
        assert Update(snapshots, event) == (snapshots, Discarded);
        return Discarded;
      }
      var e := event.value;
      var hub, sensor := e.hubId.value, e.id.value;
      ghost var before := snapshots;
      if hub !in snapshots {
        snapshots := snapshots[hub := SensorsSnapshotAvro(hub, e.timestamp, map[])];
      }
      var snapshot := snapshots[hub];
      var sensorStates := snapshot.sensorsState;
      if sensor in sensorStates {
        var oldState := sensorStates[sensor];
        assert hub in before && StoredState(before, hub, sensor) == Some(oldState);
        if oldState.timestamp > e.timestamp {
          assert Update(before, event) == (before, Discarded);
          return Discarded;
        }
        if oldState.data.None? {
          assert Update(before, event) == (before, NullPointer);
          return NullPointer;
        }
        if oldState.data == e.payload {
          assert Update(before, event) == (before, Discarded);
          return Discarded;
        }
      }
      sensorStates := sensorStates[sensor := SensorStateAvro(e.timestamp, e.payload)];
      var updateSnapshot := SensorsSnapshotAvro(snapshot.hubId, e.timestamp, sensorStates);
      snapshots := snapshots[hub := updateSnapshot];
      r := Updated(updateSnapshot);
      assert Decide(StoredState(before, hub, sensor), e) == Accept;
      assert snapshot == if hub in before then before[hub] else SensorsSnapshotAvro(hub, e.timestamp, map[]);
      assert Update(before, event).1 == r;
      assert Update(before, event).0 == snapshots;
    }
  }
}

/** The analyzer's hub-event processor: the registry from event type to handler built in the
    constructor, and the handling of one polled batch inside `run`. */
module HubEventProcessing {
  import opened Wrappers
  import opened HubEvents
  import opened HubEventHandlers

  /** `Collectors.toMap` throws `IllegalStateException` on a duplicate key. */
  datatype RegistryError = DuplicateKey(eventType: string)

  ghost predicate DistinctEventTypes(hs: seq<Handler>)
  {
    forall i, j :: 0 <= i < j < |hs| ==> EventType(hs[i]) != EventType(hs[j])
  }

  /** The event types of a handler list. */
  function EventTypes(hs: seq<Handler>): set<string>
  {
    set h | h in hs :: EventType(h)
  }

  /** `handlers.stream().collect(toMap(getEventType, identity()))`, in list order. */
  function BuildRegistry(hs: seq<Handler>): (r: Result<map<string, Handler>, RegistryError>)
    ensures r.Ok? <==> DistinctEventTypes(hs)
    ensures r.Ok? ==> r.value.Keys == EventTypes(hs)
    ensures r.Ok? ==> forall i :: 0 <= i < |hs| ==> r.value[EventType(hs[i])] == hs[i]
    decreases |hs|
  {
    if hs == [] then Ok(map[])
    else
      var init, h := hs[..|hs| - 1], hs[|hs| - 1];
      DistinctSnoc(hs);
      match BuildRegistry(init)
      case Err(e) => Err(e)
      case Ok(m) =>
        if EventType(h) in m then Err(DuplicateKey(EventType(h)))
        else Ok(m[EventType(h) := h])
  }

  /** A list has distinct event types exactly when its prefix has and its last element's type
      is new. */
  lemma DistinctSnoc(hs: seq<Handler>)
    requires hs != []
    ensures forall i :: 0 <= i < |hs| - 1 ==> hs[..|hs| - 1][i] == hs[i]
    ensures EventTypes(hs) == EventTypes(hs[..|hs| - 1]) + {EventType(hs[|hs| - 1])}
    ensures EventType(hs[|hs| - 1]) in EventTypes(hs[..|hs| - 1]) <==>
      exists i :: 0 <= i < |hs| - 1 && EventType(hs[i]) == EventType(hs[|hs| - 1])
    ensures DistinctEventTypes(hs) <==>
      DistinctEventTypes(hs[..|hs| - 1]) && forall i :: 0 <= i < |hs| - 1 ==> EventType(hs[i]) != EventType(hs[|hs| - 1])
  {
    assert hs == hs[..|hs| - 1] + [hs[|hs| - 1]];
  }

  /** The lookup inside `run`: the handler registered for the payload's type name, or none
      (`IllegalArgumentException`). */
  function FindHandler(registry: map<string, Handler>, event: HubEventAvro): Option<Handler>
  {
    var name := PayloadTypeName(event.payload);
    if name in registry then Some(registry[name]) else None
  }

  /** With a registry built from `hs`, an event finds a handler exactly when some handler of
      `hs` accepts its payload type; the handler found is that one, and it never fails the cast. */
  lemma DispatchFindsMatchingHandler(hs: seq<Handler>, event: HubEventAvro, s: Store, sensorsExist: ExistsQuery)
    requires DistinctEventTypes(hs)
    ensures FindHandler(BuildRegistry(hs).value, event).Some? <==>
      exists i :: 0 <= i < |hs| && EventType(hs[i]) == PayloadTypeName(event.payload)
    ensures FindHandler(BuildRegistry(hs).value, event).Some? ==>
      var h := FindHandler(BuildRegistry(hs).value, event).value;
      h in hs && EventType(h) == PayloadTypeName(event.payload) && Handle(h, s, event, sensorsExist) != Err(ClassCast)
  {
    var registry := BuildRegistry(hs).value;
    var name := PayloadTypeName(event.payload);
    if name in registry {
      var i :| 0 <= i < |hs| && EventType(hs[i]) == name;
      assert registry[name] == hs[i];
      HandleMatchingPayload(hs[i], s, event, sensorsExist);
    }
  }

  /** One call of `handle` made by the processor. */
  datatype Invocation = Invocation(handler: Handler, event: HubEventAvro)

  /** Why a batch stopped early, with the position of the record that stopped it. */
  datatype BatchFailure =
    | NoHandlerFound(index: nat)                       // IllegalArgumentException from the lookup
    | HandlerFailed(index: nat, error: HandlerError)   // the handler threw

  /** The repositories and the calls of `handle` so far, after a batch or its failure. */
  datatype BatchResult = BatchResult(store: Store, invocations: seq<Invocation>, failure: Option<BatchFailure>)

  /** Handling record `index` of a batch. */
  function Step(registry: map<string, Handler>, sensorsExist: ExistsQuery, r: BatchResult, event: HubEventAvro, index: nat): BatchResult
  {
    match FindHandler(registry, event)
    case None => r.(failure := Some(NoHandlerFound(index)))
    case Some(h) =>
      var calls := r.invocations + [Invocation(h, event)];
      match Handle(h, r.store, event, sensorsExist)
      case Ok(store) => BatchResult(store, calls, None)
      case Err(e) => BatchResult(r.store, calls, Some(HandlerFailed(index, e)))
  }

  /** The `for` loop over the records of one batch, in arrival order, stopping at the first
      exception. */
  function Run(registry: map<string, Handler>, sensorsExist: ExistsQuery, start: BatchResult, records: seq<HubEventAvro>): BatchResult
    requires start.failure.None?
    decreases |records|
  {
    if records == [] then start
    else
      var before := Run(registry, sensorsExist, start, records[..|records| - 1]);
      if before.failure.Some? then before
      else Step(registry, sensorsExist, before, records[|records| - 1], |records| - 1)
  }

  /** A batch that completes has passed every record, in order, to exactly the handler
      registered for its payload type, once each. */
  lemma {:induction false} RunCompletes(registry: map<string, Handler>, sensorsExist: ExistsQuery, start: BatchResult, records: seq<HubEventAvro>)
    requires start.failure.None?
    requires Run(registry, sensorsExist, start, records).failure.None?
    ensures var calls := Run(registry, sensorsExist, start, records).invocations;
      && |calls| == |start.invocations| + |records|
      && calls[..|start.invocations|] == start.invocations
      && forall i :: 0 <= i < |records| ==>
           PayloadTypeName(records[i].payload) in registry
           && calls[|start.invocations| + i] == Invocation(registry[PayloadTypeName(records[i].payload)], records[i])
    decreases |records|
  {
    if records != [] {
      var init := records[..|records| - 1];
      RunCompletes(registry, sensorsExist, start, init);
      forall i | 0 <= i < |init| ensures init[i] == records[i] { }
    }
  }

  /** A batch that fails at record k has completed records 0..k-1, and then stops: nothing after
      record k is handled, and an unregistered payload type invokes no handler. */
  lemma {:induction false} RunStops(registry: map<string, Handler>, sensorsExist: ExistsQuery, start: BatchResult, records: seq<HubEventAvro>)
    requires start.failure.None?
    requires Run(registry, sensorsExist, start, records).failure.Some?
    ensures var r := Run(registry, sensorsExist, start, records);
      var k := r.failure.value.index;
      && k < |records|
      && Run(registry, sensorsExist, start, records[..k]).failure.None?
      && r == Step(registry, sensorsExist, Run(registry, sensorsExist, start, records[..k]), records[k], k)
      && (r.failure.value.NoHandlerFound? <==> PayloadTypeName(records[k].payload) !in registry)
      && (r.failure.value.NoHandlerFound? ==> r.invocations == Run(registry, sensorsExist, start, records[..k]).invocations)
      && r.store == Run(registry, sensorsExist, start, records[..k]).store
    decreases |records|
  {
    var init := records[..|records| - 1];
    var before := Run(registry, sensorsExist, start, init);
    if before.failure.Some? {
      RunStops(registry, sensorsExist, start, init);
      var k := before.failure.value.index;
      assert records[..k] == init[..k];
      assert records[k] == init[k];
    } else {
      assert records[..|records| - 1] == init;
    }
  }

  /** The processor: its handler registry, the repositories the handlers write, the calls of
      `handle` made so far, and the numbers of asynchronous and synchronous commits issued. */
  class HubEventProcessor {
    const hubEventHandlers: map<string, Handler>
    const repositories: Repositories
    ghost var invocations: seq<Invocation>
    var asyncCommits: nat
    var syncCommits: nat

    constructor (hubEventHandlers: map<string, Handler>, repositories: Repositories)
      ensures this.hubEventHandlers == hubEventHandlers && this.repositories == repositories
      ensures invocations == [] && asyncCommits == 0 && syncCommits == 0
    {
      this.hubEventHandlers := hubEventHandlers;
      this.repositories := repositories;
      invocations := [];
      asyncCommits := 0;
      syncCommits := 0;
    }

    /** The constructor as the application context calls it: the registry is collected from the
        handler list, and a duplicate event type makes construction throw. */
    static method Create(handlers: seq<Handler>, repositories: Repositories) returns (r: Result<HubEventProcessor, RegistryError>)
      ensures r.Err? <==> BuildRegistry(handlers).Err?
      ensures r.Err? ==> r.error == BuildRegistry(handlers).error
      ensures r.Ok? ==> fresh(r.value) && r.value.hubEventHandlers == BuildRegistry(handlers).value
      ensures r.Ok? ==> r.value.repositories == repositories && r.value.invocations == []
      ensures r.Ok? ==> r.value.asyncCommits == 0 && r.value.syncCommits == 0
    {
      match BuildRegistry(handlers) {
        case Err(e) => r := Err(e);
        case Ok(registry) =>
          var p := new HubEventProcessor(registry, repositories);
          r := Ok(p);
      }
    }

    /** The body of `run`'s poll loop for one batch: each record is dispatched in order, an
        unregistered payload type or a throwing handler stops the batch, and `commitAsync` is
        issued only for a non-empty batch that was handled completely. A failure ends `run`, whose
        `finally` block issues `commitSync`: the offsets of the whole poll are committed, so the
        failing record and the ones after it are not delivered again. */
    method ProcessBatch(records: seq<HubEventAvro>) returns (failure: Option<BatchFailure>)
      modifies this, repositories
      ensures Run(hubEventHandlers, repositories.existsByIdInAndHubId,
                  BatchResult(old(repositories.Contents()), old(invocations), None), records)
              == BatchResult(repositories.Contents(), invocations, failure)
      ensures asyncCommits == old(asyncCommits) + (if failure.None? && records != [] then 1 else 0)
      ensures syncCommits == old(syncCommits) + (if failure.Some? then 1 else 0)
    {
      ghost var start := BatchResult(repositories.Contents(), invocations, None);
      var sensorsExist := repositories.existsByIdInAndHubId;
      failure := None;
      var i := 0;
      while i < |records|
        invariant 0 <= i <= |records|
        invariant asyncCommits == old(asyncCommits) && syncCommits == old(syncCommits)
        invariant Run(hubEventHandlers, sensorsExist, start, records[..i]) == BatchResult(repositories.Contents(), invocations, None)
      {
        ghost var before := BatchResult(repositories.Contents(), invocations, None);
        RunNext(hubEventHandlers, sensorsExist, start, records, i);
        var event := records[i];
        var eventPayloadName := PayloadTypeName(event.payload);
        if eventPayloadName !in hubEventHandlers {
          failure := Some(NoHandlerFound(i));
          RunStopsAt(hubEventHandlers, sensorsExist, start, records, i + 1);
          syncCommits := syncCommits + 1;
          return;
        }
        var eventHandler := hubEventHandlers[eventPayloadName];
        invocations := invocations + [Invocation(eventHandler, event)];
        var outcome := HandleEvent(eventHandler, repositories, event);
        assert Step(hubEventHandlers, sensorsExist, before, event, i) ==
          BatchResult(repositories.Contents(), invocations, if outcome.Pass? then None else Some(HandlerFailed(i, outcome.error)));
        if outcome.Fail? {
          failure := Some(HandlerFailed(i, outcome.error));
          RunStopsAt(hubEventHandlers, sensorsExist, start, records, i + 1);
          syncCommits := syncCommits + 1;
          return;
        }
        i := i + 1;
      }
      assert records[..i] == records;
      if records != [] {
        asyncCommits := asyncCommits + 1;
      }
    }
  }

  /** A batch whose first i records completed handles record i next. */
  lemma RunNext(registry: map<string, Handler>, sensorsExist: ExistsQuery, start: BatchResult, records: seq<HubEventAvro>, i: nat)
    requires start.failure.None? && i < |records|
    requires Run(registry, sensorsExist, start, records[..i]).failure.None?
    ensures Run(registry, sensorsExist, start, records[..i + 1])
            == Step(registry, sensorsExist, Run(registry, sensorsExist, start, records[..i]), records[i], i)
  {
    assert records[..i + 1][..i] == records[..i];
  }

  /** Once a prefix of a batch has failed, the records after it change nothing. */
  lemma {:induction false} RunStopsAt(registry: map<string, Handler>, sensorsExist: ExistsQuery, start: BatchResult, records: seq<HubEventAvro>, n: nat)
    requires start.failure.None? && n <= |records|
    requires Run(registry, sensorsExist, start, records[..n]).failure.Some?
    ensures Run(registry, sensorsExist, start, records) == Run(registry, sensorsExist, start, records[..n])
    decreases |records| - n
  {
    if n < |records| {
      assert records[..n + 1][..n] == records[..n];
      RunStopsAt(registry, sensorsExist, start, records, n + 1);
    } else {
      assert records[..n] == records;
    }
  }
}

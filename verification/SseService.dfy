/** The event stream service and the connection handler over its shared objects, each call proved to do
    what SseSpec says (services/orchestrator/src/sse/). */
module SseService {
  import opened Collections
  import opened RunTypes
  import S = SseSpec
  import H = SseHistory
  import opened SseStreams

  /** Both mapping methods take a number before anything else. */
  class DefaultEventMapper {
    const sequencer: MemoryEventSequencer

    constructor (sequencer: MemoryEventSequencer)
      ensures this.sequencer == sequencer
    {
      this.sequencer := sequencer;
    }

    method Map(runId: RunId, eventType: string, payload: string) returns (event: Option<S.Event>)
      modifies sequencer
      ensures sequencer.counters == old(sequencer.counters)[runId := S.Current(old(sequencer.counters), runId) + 1]
      ensures event == if eventType in S.AGENT_EVENT_TYPES
                       then Some(S.Event(eventType, runId, S.Current(old(sequencer.counters), runId) + 1, payload))
                       else None
    {
      var seqNo := sequencer.Next(runId);
      event := if eventType in S.AGENT_EVENT_TYPES then Some(S.Event(eventType, runId, seqNo, payload)) else None;
    }

    method MapOrchestratorEvent(runId: RunId, eventType: string, payload: string) returns (event: S.Event)
      modifies sequencer
      ensures sequencer.counters == old(sequencer.counters)[runId := S.Current(old(sequencer.counters), runId) + 1]
      ensures event == S.Event(eventType, runId, S.Current(old(sequencer.counters), runId) + 1, payload)
    {
      var seqNo := sequencer.Next(runId);
      event := S.Event(eventType, runId, seqNo, payload);
    }
  }

  class DefaultEnvelopeFactory {
    const sequencer: MemoryEventSequencer

    constructor (sequencer: MemoryEventSequencer)
      ensures this.sequencer == sequencer
    {
      this.sequencer := sequencer;
    }

    method Create(runId: RunId, eventType: string, payload: string) returns (event: S.Event)
      modifies sequencer
      ensures sequencer.counters == old(sequencer.counters)[runId := S.Current(old(sequencer.counters), runId) + 1]
      ensures event == S.Event(eventType, runId, S.Current(old(sequencer.counters), runId) + 1, payload)
    {
      var seqNo := sequencer.Next(runId);
      event := S.Event(eventType, runId, seqNo, payload);
    }
  }

  const BUFFER_SIZE: nat := 1000

  class SSEService {
    const sequencer: MemoryEventSequencer
    const streamController: MemorySSEStreamController
    const eventBuffer: BoundedEventBuffer
    const eventMapper: DefaultEventMapper
    const envelopeFactory: DefaultEnvelopeFactory

    /** The mapper and the factory draw from the service's own sequencer. */
    ghost predicate Valid()
      reads streamController
    {
      && eventMapper.sequencer == sequencer
      && envelopeFactory.sequencer == sequencer
      && eventBuffer.maxSize == BUFFER_SIZE
      && streamController.Valid()
    }

    ghost function Repr(): set<object> { {sequencer, streamController, eventBuffer} }

    ghost function State(): S.Sse
      reads Repr()
    {
      S.Sse(sequencer.counters, eventBuffer.State(), streamController.State())
    }

    constructor ()
      ensures Valid() && fresh(Repr()) && State() == S.EMPTY
    {
      var shared := new MemoryEventSequencer();
      sequencer := shared;
      streamController := new MemorySSEStreamController();
      eventBuffer := new BoundedEventBuffer(BUFFER_SIZE);
      eventMapper := new DefaultEventMapper(shared);
      envelopeFactory := new DefaultEnvelopeFactory(shared);
    }

    method RegisterStream(runId: RunId, stream: S.StreamId, newSet: S.SetId)
      requires Valid() && stream !in streamController.clients && newSet !in streamController.sets
      modifies Repr()
      ensures Valid()
      ensures State() == old(State()).(streams := S.Register(old(State()).streams, runId, stream, newSet))
    {
      streamController.Register(runId, stream, newSet);
    }

    method Broadcast(event: S.Event)
      requires Valid()
      modifies Repr()
      ensures Valid() && State() == S.Publish(old(State()), BUFFER_SIZE, event)
    {
      hide S.Push, S.Broadcast, H.StreamsOk;
      eventBuffer.Push(event);
      streamController.Broadcast(event.runId, event);
    }

    method BroadcastAgentEvent(runId: RunId, eventType: string, payload: string)
      requires Valid()
      modifies Repr()
      ensures Valid() && State() == S.AgentEvent(old(State()), BUFFER_SIZE, runId, eventType, payload)
    {
      hide S.Publish, H.StreamsOk;
      var event := eventMapper.Map(runId, eventType, payload);
      assert State() == S.Tick(old(State()), runId);
      if event.Some? {
        Broadcast(event.value);
      }
    }

    method BroadcastOrchestratorEvent(runId: RunId, eventType: string, payload: string)
      requires Valid()
      modifies Repr()
      ensures Valid() && State() == S.OrchestratorEvent(old(State()), BUFFER_SIZE, runId, eventType, payload)
    {
      hide S.Publish, H.StreamsOk;
      var event := eventMapper.MapOrchestratorEvent(runId, eventType, payload);
      assert State() == S.Tick(old(State()), runId);
      Broadcast(event);
    }

    method CloseRun(runId: RunId)
      requires Valid()
      modifies Repr()
      ensures Valid() && State() == S.CloseRun(old(State()), runId)
    {
      hide S.CloseStreams, S.Clear, H.StreamsOk;
      streamController.CloseRun(runId);
      eventBuffer.Clear(runId);
      sequencer.Cleanup(runId);
    }

    method GetBufferedEventsFrom(startSeq: int) returns (events: seq<S.Event>)
      ensures events == S.GetFrom(State().buffers, startSeq)
    {
      events := eventBuffer.GetFrom(startSeq);
    }

    method CreateEnvelope(runId: RunId, eventType: string, payload: string) returns (event: S.Event)
      requires Valid()
      modifies sequencer
      ensures Valid() && State() == S.Tick(old(State()), runId)
      ensures event == S.NextEvent(old(State()), runId, eventType, payload)
    {
      hide H.StreamsOk;
      event := envelopeFactory.Create(runId, eventType, payload);
    }

    /** What the handler's own write to its response does. */
    method WriteTo(stream: S.StreamId, event: S.Event)
      requires Valid() && stream in streamController.clients
      modifies streamController
      ensures Valid()
      ensures State() == old(State()).(streams := S.Write(old(State()).streams, stream, [event]))
    {
      streamController.Write(stream, event);
    }

    /** The replay loop. */
    method WriteAll(stream: S.StreamId, events: seq<S.Event>)
      requires Valid() && stream in streamController.clients
      modifies streamController
      ensures Valid()
      ensures State() == old(State()).(streams := S.Write(old(State()).streams, stream, events))
    {
      hide H.StreamsOk;
      ghost var before := State();
      WriteNothing(before.streams, stream);
      var i := 0;
      while i < |events|
        invariant i <= |events|
        invariant Valid() && stream in streamController.clients
        invariant State() == before.(streams := S.Write(before.streams, stream, events[..i]))
      {
        WriteMore(before.streams, stream, events[..i], events[i]);
        assert events[..i + 1] == events[..i] + [events[i]];
        hide S.Write;
        WriteTo(stream, events[i]);
        i := i + 1;
      }
      assert events[..i] == events;
    }

    /** The synchronous part of the connection handler; None for startSeq is no replay position, or one
        that does not parse. The cleanup it keeps is streamController.Cleanup(stream). */
    method Connect(runId: RunId, stream: S.StreamId, newSet: S.SetId, startSeq: Option<int>, payload: string)
      requires Valid() && stream !in streamController.clients && newSet !in streamController.sets
      modifies Repr()
      ensures Valid()
      ensures State() == S.Connect(old(State()), runId, stream, newSet, startSeq, payload)
    {
      hide H.StreamsOk, S.GetFrom;
      RegisterStream(runId, stream, newSet);
      ghost var before := State();
      assert stream in before.streams.clients;
      hide S.Register, S.Write;
      ghost var replay: seq<S.Event> := [];
      WriteNothing(before.streams, stream);
      if startSeq.Some? {
        var bufferedEvents := GetBufferedEventsFrom(startSeq.value);
        WriteAll(stream, bufferedEvents);
        replay := bufferedEvents;
      }
      var connectedEvent := CreateEnvelope(runId, S.STREAM_CONNECTED, payload);
      WriteMore(before.streams, stream, replay, connectedEvent);
      WriteTo(stream, connectedEvent);
    }
  }

  lemma WriteNothing(st: S.Streams, c: S.StreamId)
    requires c in st.clients
    ensures S.Write(st, c, []) == st
  {
    assert st.clients[c].written + [] == st.clients[c].written;
    assert S.Write(st, c, []).clients == st.clients;
  }

  lemma WriteMore(st: S.Streams, c: S.StreamId, es: seq<S.Event>, e: S.Event)
    requires c in st.clients
    ensures c in S.Write(st, c, es).clients
    ensures S.Write(S.Write(st, c, es), c, [e]) == S.Write(st, c, es + [e])
  {
    assert (st.clients[c].written + es) + [e] == st.clients[c].written + (es + [e]);
  }
}

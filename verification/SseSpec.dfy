/** The event stream service: per-run sequence numbers, a bounded replay buffer, the registry of
    connected clients, and the connection handover (services/orchestrator/src/sse/). */
module SseSpec {
  import opened Collections
  import opened RunTypes
  import opened StableSort

  /** An envelope without its timestamp. */
  datatype Event = Event(eventType: string, runId: RunId, seqNo: nat, payload: string)

  const AGENT_EVENT_TYPES: set<string> := {
    "agent_start", "agent_end", "turn_start", "turn_end", "message_start", "message_update", "message_end",
    "tool_execution_start", "tool_execution_update", "tool_execution_end"}

  const STREAM_CONNECTED := "stream_connected"

  function IsOf(r: RunId): Event -> bool { (e: Event) => e.runId == r }

  function AtLeast(n: int): Event -> bool { (e: Event) => e.seqNo >= n }

  const BY_SEQ: Comparator<Event> := (a: Event, b: Event) => a.seqNo - b.seqNo

  // The sequencer.

  type Counters = map<RunId, nat>

  function Current(cs: Counters, r: RunId): nat { if r in cs then cs[r] else 0 }

  // The replay buffer.

  /** A Map from run to events; order is the Map's insertion order. */
  datatype Buffers = Buffers(order: seq<RunId>, events: map<RunId, seq<Event>>)

  const NO_BUFFERS := Buffers([], map[])

  function BufferOf(b: Buffers, r: RunId): seq<Event> { if r in b.events then b.events[r] else [] }

  function Evict(s: seq<Event>, maxSize: nat): seq<Event> { if |s| > maxSize then s[1..] else s }

  function Push(b: Buffers, maxSize: nat, e: Event): Buffers {
    Buffers(if e.runId in b.events then b.order else b.order + [e.runId],
            b.events[e.runId := Evict(BufferOf(b, e.runId) + [e], maxSize)])
  }

  function Clear(b: Buffers, r: RunId): Buffers { Buffers(Without(b.order, {r}), b.events - {r}) }

  /** All buffered events, run by run. */
  function AllEvents(order: seq<RunId>, events: map<RunId, seq<Event>>): seq<Event> {
    if order == [] then []
    else (if order[0] in events then events[order[0]] else []) + AllEvents(order[1..], events)
  }

  function GetFrom(b: Buffers, n: int): seq<Event> {
    Sort(BY_SEQ, Filter(AtLeast(n), AllEvents(b.order, b.events)))
  }

  // The stream registry. Streams and the sets that hold them are named by handles, so that the set a
  // cleanup closure captured stays distinguishable from a later set of the same run.

  datatype StreamId = StreamId(serial: nat)

  datatype SetId = SetId(serial: nat)

  /** A connected response: what has been written to it, and the run and set its cleanup captured.
      Writing to a failing one throws. */
  datatype Client = Client(open: bool, failing: bool, written: seq<Event>, run: RunId, joined: SetId)

  datatype Streams = Streams(
    registry: map<RunId, SetId>,
    members: map<SetId, seq<StreamId>>,
    clients: map<StreamId, Client>)

  const NO_STREAMS := Streams(map[], map[], map[])

  function MembersOf(s: Streams, k: SetId): seq<StreamId> { if k in s.members then s.members[k] else [] }

  /** Who is reached by a broadcast for run r. */
  function Listeners(s: Streams, r: RunId): seq<StreamId> {
    if r in s.registry then MembersOf(s, s.registry[r]) else []
  }

  function Register(s: Streams, r: RunId, c: StreamId, newSet: SetId): Streams {
    var k := if r in s.registry then s.registry[r] else newSet;
    Streams(s.registry[r := k], s.members[k := MembersOf(s, k) + [c]], s.clients[c := Client(true, false, [], r, k)])
  }

  function Write(s: Streams, c: StreamId, es: seq<Event>): Streams
    requires c in s.clients
  {
    s.(clients := s.clients[c := s.clients[c].(written := s.clients[c].written + es)])
  }

  predicate Reachable(c: Client) { c.open && !c.failing }

  function Delivered(c: Client, e: Event): Client {
    if Reachable(c) then c.(written := c.written + [e]) else c.(open := false)
  }

  function Alive(s: Streams, ids: seq<StreamId>): seq<StreamId> {
    Filter((c: StreamId) => c in s.clients && Reachable(s.clients[c]), ids)
  }

  function DeliverAll(s: Streams, ids: seq<StreamId>, e: Event): map<StreamId, Client> {
    map c | c in s.clients :: if c in ids then Delivered(s.clients[c], e) else s.clients[c]
  }

  function WithMembers(s: Streams, r: RunId, k: SetId, ids: seq<StreamId>): Streams {
    s.(members := s.members[k := ids], registry := if ids == [] then s.registry - {r} else s.registry)
  }

  /** Open streams get the event; the others are dropped from the set and closed. */
  function Broadcast(s: Streams, r: RunId, e: Event): Streams {
    if r !in s.registry then s
    else
      var ids := Listeners(s, r);
      WithMembers(s, r, s.registry[r], Alive(s, ids)).(clients := DeliverAll(s, ids, e))
  }

  function CloseAll(clients: map<StreamId, Client>, ids: seq<StreamId>): map<StreamId, Client> {
    map c | c in clients :: if c in ids then clients[c].(open := false) else clients[c]
  }

  function CloseStreams(s: Streams, r: RunId): Streams {
    if r !in s.registry then s
    else s.(registry := s.registry - {r}, clients := CloseAll(s.clients, Listeners(s, r)))
  }

  /** The cleanup closure of client c: it works on the set it captured, and if that becomes empty it
      deletes whatever set the run has now. */
  function Cleanup(s: Streams, c: StreamId): Streams
    requires c in s.clients
  {
    var client := s.clients[c];
    WithMembers(s, client.run, client.joined, Without(MembersOf(s, client.joined), {c}))
      .(clients := s.clients[c := client.(open := false)])
  }

  // The service.

  datatype Sse = Sse(counters: Counters, buffers: Buffers, streams: Streams)

  const EMPTY := Sse(map[], NO_BUFFERS, NO_STREAMS)

  /** Taking a number. */
  function Tick(s: Sse, r: RunId): Sse { s.(counters := s.counters[r := Current(s.counters, r) + 1]) }

  function NextEvent(s: Sse, r: RunId, eventType: string, payload: string): Event {
    Event(eventType, r, Current(s.counters, r) + 1, payload)
  }

  function Publish(s: Sse, maxSize: nat, e: Event): Sse {
    s.(buffers := Push(s.buffers, maxSize, e), streams := Broadcast(s.streams, e.runId, e))
  }

  function OrchestratorEvent(s: Sse, maxSize: nat, r: RunId, eventType: string, payload: string): Sse {
    Publish(Tick(s, r), maxSize, NextEvent(s, r, eventType, payload))
  }

  /** An agent event of an unknown type takes a number and is dropped. */
  function AgentEvent(s: Sse, maxSize: nat, r: RunId, eventType: string, payload: string): Sse {
    if eventType in AGENT_EVENT_TYPES then OrchestratorEvent(s, maxSize, r, eventType, payload) else Tick(s, r)
  }

  /** Agents and turns start and end; messages and tool executions are also updated in between. */
  predicate IsPhase(eventType: string) {
    || (exists subject :: subject in {"agent", "turn"} && eventType in {subject + "_start", subject + "_end"})
    || (exists subject :: subject in {"message", "tool_execution"}
          && eventType in {subject + "_start", subject + "_update", subject + "_end"})
  }

  lemma PhaseTypes(eventType: string)
    ensures eventType in AGENT_EVENT_TYPES <==> IsPhase(eventType)
  {
    assert "agent" + "_start" == "agent_start" && "agent" + "_end" == "agent_end";
    assert "turn" + "_start" == "turn_start" && "turn" + "_end" == "turn_end";
    assert "message" + "_start" == "message_start" && "message" + "_end" == "message_end";
    assert "message" + "_update" == "message_update";
    assert "tool_execution" + "_start" == "tool_execution_start";
    assert "tool_execution" + "_update" == "tool_execution_update";
    assert "tool_execution" + "_end" == "tool_execution_end";
  }

  /** An agent event takes a number in any case; it is published, under that number, exactly if it is one of
      those, and otherwise nobody hears of it. */
  lemma PhasesArePublished(s: Sse, maxSize: nat, r: RunId, eventType: string, payload: string)
    ensures var s' := AgentEvent(s, maxSize, r, eventType, payload);
            && s'.counters == s.counters[r := Current(s.counters, r) + 1]
            && if IsPhase(eventType)
               then var e := Event(eventType, r, Current(s.counters, r) + 1, payload);
                    s'.buffers == Push(s.buffers, maxSize, e) && s'.streams == Broadcast(s.streams, r, e)
               else s'.buffers == s.buffers && s'.streams == s.streams
  {
    hide IsPhase, Push, Broadcast;
    PhaseTypes(eventType);
  }

  function CloseRun(s: Sse, r: RunId): Sse {
    Sse(s.counters - {r}, Clear(s.buffers, r), CloseStreams(s.streams, r))
  }

  /** The synchronous part of opening a stream: register, replay what was asked for, say hello. */
  function Connect(s: Sse, r: RunId, c: StreamId, newSet: SetId, startSeq: Option<int>, payload: string): Sse {
    var replay := if startSeq.Some? then GetFrom(s.buffers, startSeq.value) else [];
    var hello := NextEvent(s, r, STREAM_CONNECTED, payload);
    Tick(s, r).(streams := Write(Register(s.streams, r, c, newSet), c, replay + [hello]))
  }
}

/** Runs of the event stream service, and what they should add up to: an unbounded log per run, counts of
    the numbers spent otherwise, and what each client was due when it connected. */
module SseHistory {
  import opened Collections
  import opened RunTypes
  import opened StableSort
  import opened SseSpec
  import opened SseReplay

  datatype Action =
    | Emit(run: RunId, eventType: string, payload: string)
    | Agent(run: RunId, eventType: string, payload: string)
    | Close(run: RunId)
    | Join(run: RunId, client: StreamId, newSet: SetId, startSeq: Option<int>, payload: string)
    | Leave(client: StreamId)
    | Break(client: StreamId)
    | Hangup(client: StreamId)

  /** New streams and sets are new objects; cleanups and failures concern streams that exist. A cleanup
      may run more than once: on disconnection and when the run is seen to have ended. */
  predicate Enabled(s: Sse, a: Action) {
    match a
    case Join(_, c, k, _, _) => c !in s.streams.clients && k !in s.streams.members
    case Leave(c) => c in s.streams.clients
    case Break(c) => c in s.streams.clients
    case Hangup(c) => c in s.streams.clients
    case _ => true
  }

  function WithClient(st: Streams, c: StreamId, client: Client): Streams {
    st.(clients := st.clients[c := client])
  }

  function Next(s: Sse, maxSize: nat, a: Action): Sse
    requires Enabled(s, a)
  {
    match a
    case Emit(r, ty, p) => OrchestratorEvent(s, maxSize, r, ty, p)
    case Agent(r, ty, p) => AgentEvent(s, maxSize, r, ty, p)
    case Close(r) => CloseRun(s, r)
    case Join(r, c, k, n, p) => Connect(s, r, c, k, n, p)
    case Leave(c) => s.(streams := Cleanup(s.streams, c))
    case Break(c) => s.(streams := WithClient(s.streams, c, s.streams.clients[c].(failing := true)))
    case Hangup(c) => s.(streams := WithClient(s.streams, c, s.streams.clients[c].(open := false)))
  }

  /** greeting: what a client was sent on connecting. before: its run's log at that moment. */
  datatype Ticket = Ticket(greeting: seq<Event>, before: seq<Event>)

  /** Per run, since its last close: everything pushed, and how many numbers went to dropped agent events
      and to connection envelopes. */
  datatype History = History(
    pushed: map<RunId, seq<Event>>,
    skipped: map<RunId, nat>,
    joins: map<RunId, nat>,
    tickets: map<StreamId, Ticket>)

  const NO_HISTORY := History(map[], map[], map[], map[])

  function Log(h: History, r: RunId): seq<Event> { if r in h.pushed then h.pushed[r] else [] }

  function Count(m: map<RunId, nat>, r: RunId): nat { if r in m then m[r] else 0 }

  /** Numbers of run r that no buffered event carries. */
  function Others(h: History, r: RunId): nat { Count(h.skipped, r) + Count(h.joins, r) }

  function Pushed(h: History, e: Event): History { h.(pushed := h.pushed[e.runId := Log(h, e.runId) + [e]]) }

  function Skipped(h: History, r: RunId): History { h.(skipped := h.skipped[r := Count(h.skipped, r) + 1]) }

  function Closed(h: History, r: RunId): History {
    h.(pushed := h.pushed - {r}, skipped := h.skipped - {r}, joins := h.joins - {r})
  }

  /** What Connect writes. */
  function Greeting(s: Sse, r: RunId, startSeq: Option<int>, payload: string): seq<Event> {
    (if startSeq.Some? then GetFrom(s.buffers, startSeq.value) else []) + [NextEvent(s, r, STREAM_CONNECTED, payload)]
  }

  function Joined(h: History, s: Sse, r: RunId, c: StreamId, startSeq: Option<int>, payload: string): History {
    h.(joins := h.joins[r := Count(h.joins, r) + 1],
       tickets := h.tickets[c := Ticket(Greeting(s, r, startSeq, payload), Log(h, r))])
  }

  function Record(h: History, s: Sse, a: Action): History {
    match a
    case Emit(r, ty, p) => Pushed(h, NextEvent(s, r, ty, p))
    case Agent(r, ty, p) => if ty in AGENT_EVENT_TYPES then Pushed(h, NextEvent(s, r, ty, p)) else Skipped(h, r)
    case Close(r) => Closed(h, r)
    case Join(r, c, _, n, p) => Joined(h, s, r, c, n, p)
    case _ => h
  }

  datatype World = World(s: Sse, h: History)

  function Step(w: World, maxSize: nat, a: Action): World
    requires Enabled(w.s, a)
  {
    World(Next(w.s, maxSize, a), Record(w.h, w.s, a))
  }

  const INITIAL := World(EMPTY, NO_HISTORY)

  predicate Possible(w: World, maxSize: nat, actions: seq<Action>)
    decreases |actions|
  {
    actions == [] || (Enabled(w.s, actions[0]) && Possible(Step(w, maxSize, actions[0]), maxSize, actions[1..]))
  }

  function After(w: World, maxSize: nat, actions: seq<Action>): World
    requires Possible(w, maxSize, actions)
    decreases |actions|
  {
    if actions == [] then w else After(Step(w, maxSize, actions[0]), maxSize, actions[1..])
  }

  // The invariant: numbers and buffer.

  /** One run's numbers: its log is increasing, within the counter, and the counter counts everything. */
  ghost predicate NumbersOk(r: RunId, log: seq<Event>, current: nat, others: nat) {
    && Increasing(log)
    && (forall e :: e in log ==> e.runId == r && 1 <= e.seqNo <= current)
    && current == |log| + others
  }

  ghost predicate AllNumbersOk(cs: Counters, h: History) {
    forall r :: NumbersOk(r, Log(h, r), Current(cs, r), Others(h, r))
  }

  ghost predicate BuffersKeepTails(b: Buffers, h: History, maxSize: nat) {
    forall r :: BufferOf(b, r) == LastN(Log(h, r), maxSize)
  }

  // The registry.

  /** Sets hold distinct existing streams, each the streams that captured it. */
  ghost predicate SetsOk(st: Streams) {
    && (forall k :: k in st.members ==> Distinct(st.members[k]))
    && (forall k, c :: k in st.members && c in st.members[k] ==> c in st.clients && st.clients[c].joined == k)
  }

  /** Each mapped set exists and is mapped for one run, the run of all its streams. */
  ghost predicate MappedOk(st: Streams) {
    && (forall r :: r in st.registry ==> st.registry[r] in st.members)
    && (forall r, x :: r in st.registry && x in st.registry && st.registry[r] == st.registry[x] ==> r == x)
    && (forall r, c :: r in st.registry && c in MembersOf(st, st.registry[r]) ==>
          c in st.clients && st.clients[c].run == r)
  }

  ghost predicate CapturedOk(st: Streams) {
    forall c :: c in st.clients ==> st.clients[c].joined in st.members
  }

  ghost predicate StreamsOk(st: Streams) { SetsOk(st) && MappedOk(st) && CapturedOk(st) }

  /** Reached by the broadcasts of its run. */
  predicate Registered(st: Streams, c: StreamId) {
    && c in st.clients
    && st.clients[c].run in st.registry
    && st.registry[st.clients[c].run] == st.clients[c].joined
    && c in MembersOf(st, st.clients[c].joined)
  }

  predicate Live(st: Streams, c: StreamId) { Registered(st, c) && st.clients[c].open }

  // What clients have been sent.

  function Own(client: Client): seq<Event> { Filter(IsOf(client.run), client.written) }

  ghost predicate UpTo(s: seq<Event>, n: nat) { forall e :: e in s ==> e.seqNo <= n }

  /** The greeting, then everything pushed since. */
  ghost predicate CaughtUp(client: Client, ticket: Ticket, log: seq<Event>, current: nat) {
    && ticket.before <= log
    && client.written == ticket.greeting + log[|ticket.before|..]
    && UpTo(Own(client), current)
  }

  ghost predicate TranscriptOk(client: Client, ticket: Ticket, live: bool, log: seq<Event>, current: nat) {
    && Increasing(Own(client))
    && ticket.greeting <= client.written
    && (live ==> CaughtUp(client, ticket, log, current))
  }

  ghost predicate ClientOk(st: Streams, cs: Counters, h: History, c: StreamId)
    requires c in st.clients
  {
    && c in h.tickets
    && TranscriptOk(st.clients[c], h.tickets[c], Live(st, c), Log(h, st.clients[c].run), Current(cs, st.clients[c].run))
  }

  ghost predicate TranscriptsOk(st: Streams, cs: Counters, h: History) {
    forall c :: c in st.clients ==> ClientOk(st, cs, h, c)
  }

  ghost predicate Inv(w: World, maxSize: nat) {
    && OrderOk(w.s.buffers)
    && AllNumbersOk(w.s.counters, w.h)
    && BuffersKeepTails(w.s.buffers, w.h, maxSize)
    && StreamsOk(w.s.streams)
    && TranscriptsOk(w.s.streams, w.s.counters, w.h)
  }
}

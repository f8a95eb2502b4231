/** What the event stream service guarantees after any sequence of calls from its start. */
module SseTheorems {
  import opened Collections
  import opened RunTypes
  import opened StableSort
  import opened SseSpec
  import opened SseReplay
  import opened SseHistory
  import opened SseSteps

  // The replay buffer and the unbounded log.

  /** A run's buffer is the last maxSize events pushed since its last close; their numbers increase
      strictly within the counter, and the counter is what was pushed, dropped and spent on connections. */
  lemma BufferRefinesLog(maxSize: nat, actions: seq<Action>, r: RunId)
    requires Possible(INITIAL, maxSize, actions)
    ensures var w := After(INITIAL, maxSize, actions); var log := Log(w.h, r);
            && BufferOf(w.s.buffers, r) == LastN(log, maxSize)
            && Increasing(log)
            && (forall e :: e in log ==> e.runId == r && 1 <= e.seqNo <= Current(w.s.counters, r))
            && Current(w.s.counters, r) == |log| + Count(w.h.skipped, r) + Count(w.h.joins, r)
  {
    InitInv(maxSize);
    RunKeeps(INITIAL, maxSize, actions);
    var w := After(INITIAL, maxSize, actions);
    assert NumbersOk(r, Log(w.h, r), Current(w.s.counters, r), Others(w.h, r));
  }

  /** Replay from n, seen by one run: the last maxSize of that run's own events numbered n or more; all of
      them exactly if there are at most maxSize. */
  lemma LosslessReconnectIff(maxSize: nat, actions: seq<Action>, r: RunId, n: int)
    requires Possible(INITIAL, maxSize, actions)
    ensures var w := After(INITIAL, maxSize, actions);
            var own := Filter(IsOf(r), GetFrom(w.s.buffers, n));
            var tail := Filter(AtLeast(n), Log(w.h, r));
            && own == LastN(tail, maxSize)
            && (own == tail <==> |tail| <= maxSize)
            && Sorted(BY_SEQ, GetFrom(w.s.buffers, n))
  {
    InitInv(maxSize);
    RunKeeps(INITIAL, maxSize, actions);
    var w := After(INITIAL, maxSize, actions);
    BufferRefinesLog(maxSize, actions, r);
    BufferNumbers(w.s.buffers, w.s.counters, w.h, maxSize, r);
    ReplaySpec(w.s.buffers, n, r);
    TailOfLast(Log(w.h, r), maxSize, n);
  }

  function Exactly(n: int): Event -> bool { (e: Event) => e.seqNo == n }

  lemma {:induction false} TailSplits(s: seq<Event>, n: int)
    requires Increasing(s)
    ensures Filter(AtLeast(n), s) == Filter(Exactly(n), s) + Filter(AtLeast(n + 1), s)
    ensures |Filter(Exactly(n), s)| <= 1
  {
    if s != [] {
      TailSplits(s[1..], n);
      if s[0].seqNo >= n {
        forall e | e in s[1..] ensures !Exactly(n)(e) {
          var i :| 1 <= i < |s| && s[i] == e;
        }
        FilterNone(Exactly(n), s[1..]);
      }
    }
  }

  /** A client that reconnects with the number of the last event it received is sent that event once more:
      replay from n is the event numbered n, if it is still buffered, and then replay from n + 1. */
  lemma ReconnectRepeatsLast(maxSize: nat, actions: seq<Action>, r: RunId, n: int)
    requires Possible(INITIAL, maxSize, actions)
    ensures var b := After(INITIAL, maxSize, actions).s.buffers;
            var last := Filter(Exactly(n), BufferOf(b, r));
            && Filter(IsOf(r), GetFrom(b, n)) == last + Filter(IsOf(r), GetFrom(b, n + 1))
            && |last| <= 1
            && (last != [] <==> exists e :: e in BufferOf(b, r) && e.seqNo == n)
  {
    InitInv(maxSize);
    RunKeeps(INITIAL, maxSize, actions);
    var w := After(INITIAL, maxSize, actions);
    BufferNumbers(w.s.buffers, w.s.counters, w.h, maxSize, r);
    assert OrderOk(w.s.buffers);
    hide Inv, OrderOk, GetFrom, After;
    ReplaySpec(w.s.buffers, n, r);
    ReplaySpec(w.s.buffers, n + 1, r);
    TailSplits(BufferOf(w.s.buffers, r), n);
    FilterMembers(Exactly(n), BufferOf(w.s.buffers, r));
    var last := Filter(Exactly(n), BufferOf(w.s.buffers, r));
    if last != [] { assert last[0] in last; }
  }

  ghost predicate Gapless(log: seq<Event>) { forall i :: 0 <= i < |log| ==> log[i].seqNo == i + 1 }

  /** The documented promise that numbers go up by one, at the moment an event is published: kept exactly
      if since the run's last close no agent event of an unknown type was dropped and no client connected. */
  lemma GaplessIff(maxSize: nat, actions: seq<Action>, r: RunId, ty: string, p: string)
    requires Possible(INITIAL, maxSize, actions)
    ensures var w := After(INITIAL, maxSize, actions);
            && Possible(w, maxSize, [Emit(r, ty, p)])
            && var w' := Step(w, maxSize, Emit(r, ty, p));
               Gapless(Log(w'.h, r)) <==> Count(w.h.skipped, r) == 0 && Count(w.h.joins, r) == 0
  {
    InitInv(maxSize);
    RunKeeps(INITIAL, maxSize, actions);
    var w := After(INITIAL, maxSize, actions);
    BufferRefinesLog(maxSize, actions, r);
    hide Inv, After;
    var e := NextEvent(w.s, r, ty, p);
    NumberedPush(r, Log(w.h, r), Current(w.s.counters, r), Others(w.h, r), e);
    GaplessLog(Log(w.h, r) + [e]);
  }

  /** Strictly increasing numbers from 1 leave no gap exactly if the last one is the count. */
  lemma GaplessLog(log: seq<Event>)
    requires Increasing(log) && log != [] && forall e :: e in log ==> e.seqNo >= 1
    ensures Gapless(log) <==> log[|log| - 1].seqNo == |log|
  {
    AboveIndex(log, |log| - 1);
    if log[|log| - 1].seqNo == |log| {
      forall i | 0 <= i < |log| ensures log[i].seqNo == i + 1 {
        AboveIndex(log, i);
        BelowLast(log, i);
      }
    }
  }

  lemma {:induction false} AboveIndex(log: seq<Event>, i: nat)
    requires Increasing(log) && i < |log| && forall e :: e in log ==> e.seqNo >= 1
    ensures log[i].seqNo >= i + 1
  {
    if i == 0 { assert log[0] in log; } else { AboveIndex(log, i - 1); }
  }

  lemma {:induction false} BelowLast(log: seq<Event>, i: nat)
    requires Increasing(log) && i < |log|
    ensures log[i].seqNo <= log[|log| - 1].seqNo - (|log| - 1 - i)
    decreases |log| - i
  {
    if i < |log| - 1 { BelowLast(log, i + 1); }
  }

  lemma {:induction false} AllEventsMembers(order: seq<RunId>, events: map<RunId, seq<Event>>, e: Event)
    ensures e in AllEvents(order, events) <==> exists x :: x in order && x in events && e in events[x]
  {
    if order != [] {
      AllEventsMembers(order[1..], events, e);
      assert order == [order[0]] + order[1..];
    }
  }

  /** Replay is not restricted to the run that was asked for: it carries an event of another run exactly
      if some other run has a buffered event numbered n or more. */
  lemma ForeignEventsIff(maxSize: nat, actions: seq<Action>, r: RunId, n: int)
    requires Possible(INITIAL, maxSize, actions)
    ensures var b := After(INITIAL, maxSize, actions).s.buffers;
            ((exists e :: e in GetFrom(b, n) && e.runId != r)
             <==> (exists x, e :: x != r && e in BufferOf(b, x) && e.seqNo >= n))
  {
    InitInv(maxSize);
    RunKeeps(INITIAL, maxSize, actions);
    var b := After(INITIAL, maxSize, actions).s.buffers;
    assert OrderOk(b);
    var picked := Filter(AtLeast(n), AllEvents(b.order, b.events));
    BySeqConsistent();
    SortSorts(BY_SEQ, picked);
    FilterMembers(AtLeast(n), AllEvents(b.order, b.events));
    hide *;
    forall e ensures e in GetFrom(b, n) <==> e.seqNo >= n && e in BufferOf(b, e.runId) {
      ReplayMember(b, n, e);
    }
    BufferOwners(b);
    if x, e :| x != r && e in BufferOf(b, x) && e.seqNo >= n {
      assert e in GetFrom(b, n) && e.runId != r;
    }
  }

  lemma BufferOwners(b: Buffers)
    requires OrderOk(b)
    ensures forall x, e :: e in BufferOf(b, x) ==> e.runId == x
  {
  }

  /** Exactly the buffered events numbered n or more are replayed. */
  lemma ReplayMember(b: Buffers, n: int, e: Event)
    requires OrderOk(b)
    ensures e in GetFrom(b, n) <==> e.seqNo >= n && e in BufferOf(b, e.runId)
  {
    var all := AllEvents(b.order, b.events);
    BySeqConsistent();
    SortSorts(BY_SEQ, Filter(AtLeast(n), all));
    FilterMembers(AtLeast(n), all);
    AllEventsMembers(b.order, b.events, e);
    assert e in GetFrom(b, n) <==> e in multiset(GetFrom(b, n));
    assert e in Filter(AtLeast(n), all) <==> e in multiset(Filter(AtLeast(n), all));
    if e in BufferOf(b, e.runId) {
      assert e.runId in b.order;
    }
  }

  // The order of a replay among runs.

  /** Runs with buffered events, in the order in which the first of those arrived. */
  function Arrivals(sofar: seq<RunId>, actions: seq<Action>): seq<RunId>
    decreases |actions|
  {
    if actions == [] then sofar
    else
      var a := actions[0];
      var now := if (a.Emit? || (a.Agent? && IsPhase(a.eventType))) && a.run !in sofar then sofar + [a.run]
                 else if a.Close? then Without(sofar, {a.run})
                 else sofar;
      Arrivals(now, actions[1..])
  }

  lemma {:induction false} OrderIsArrivals(w: World, maxSize: nat, actions: seq<Action>)
    requires Inv(w, maxSize) && Possible(w, maxSize, actions)
    ensures After(w, maxSize, actions).s.buffers.order == Arrivals(w.s.buffers.order, actions)
    decreases |actions|
  {
    hide Inv, Step, IsPhase;
    if actions != [] {
      StepKeeps(w, maxSize, actions[0]);
      OrderSteps(w, maxSize, actions[0]);
      OrderIsArrivals(Step(w, maxSize, actions[0]), maxSize, actions[1..]);
    }
  }

  lemma OrderSteps(w: World, maxSize: nat, a: Action)
    requires Inv(w, maxSize) && Enabled(w.s, a)
    ensures Step(w, maxSize, a).s.buffers.order == Arrivals(w.s.buffers.order, [a])
  {
    assert OrderOk(w.s.buffers);
    assert [a][1..] == [];
    hide Inv, IsPhase, Broadcast, CloseStreams, Cleanup, Register, Record, Evict;
    if a.Agent? { PhaseTypes(a.eventType); }
  }

  /** Events of the same number are replayed in the order in which their runs' first buffered events arrived. */
  lemma TiesByArrival(maxSize: nat, actions: seq<Action>, n: int, number: int)
    requires Possible(INITIAL, maxSize, actions) && number >= n
    ensures var b := After(INITIAL, maxSize, actions).s.buffers;
            Filter(Exactly(number), GetFrom(b, n))
            == Filter(Exactly(number), AllEvents(Arrivals([], actions), b.events))
  {
    hide Inv, After, Sort, AllEvents, Arrivals;
    InitInv(maxSize);
    OrderIsArrivals(INITIAL, maxSize, actions);
    SameNumber(After(INITIAL, maxSize, actions).s.buffers, n, number);
  }

  lemma SameNumber(b: Buffers, n: int, number: int)
    requires number >= n
    ensures Filter(Exactly(number), GetFrom(b, n)) == Filter(Exactly(number), AllEvents(b.order, b.events))
  {
    var all := AllEvents(b.order, b.events);
    var exact := Filter(Exactly(number), all);
    BySeqConsistent();
    SortThenFilter(BY_SEQ, Exactly(number), Filter(AtLeast(n), all));
    FiltersCommute(Exactly(number), AtLeast(n), all);
    FilterMembers(Exactly(number), all);
    FilterAll(AtLeast(n), exact);
    forall i, j | 0 <= i < j < |exact| ensures BY_SEQ(exact[i], exact[j]) <= 0 {
      assert exact[i] in exact && exact[j] in exact;
    }
    SortIdentity(BY_SEQ, exact);
  }

  // What the log holds.

  /** What a run has been asked to publish since its last close: orchestrator events and agent events of the
      known types, in order, with what they carry. */
  function Asked(sofar: seq<(string, string)>, actions: seq<Action>, r: RunId): seq<(string, string)>
    decreases |actions|
  {
    if actions == [] then sofar
    else
      var now := match actions[0]
                 case Emit(x, ty, p) => if x == r then sofar + [(ty, p)] else sofar
                 case Agent(x, ty, p) => if x == r && IsPhase(ty) then sofar + [(ty, p)] else sofar
                 case Close(x) => if x == r then [] else sofar
                 case _ => sofar;
      Asked(now, actions[1..], r)
  }

  function Said(log: seq<Event>): seq<(string, string)> {
    seq(|log|, i requires 0 <= i < |log| => (log[i].eventType, log[i].payload))
  }

  lemma {:induction false} LogIsAsked(w: World, maxSize: nat, actions: seq<Action>, r: RunId)
    requires Possible(w, maxSize, actions)
    ensures Said(Log(After(w, maxSize, actions).h, r)) == Asked(Said(Log(w.h, r)), actions, r)
    decreases |actions|
  {
    if actions != [] {
      var w' := Step(w, maxSize, actions[0]);
      LogSteps(w, maxSize, actions[0], r);
      hide Step;
      LogIsAsked(w', maxSize, actions[1..], r);
    }
  }

  lemma LogSteps(w: World, maxSize: nat, a: Action, r: RunId)
    requires Enabled(w.s, a)
    ensures var was := Said(Log(w.h, r)); var more := Said(Log(Step(w, maxSize, a).h, r));
            match a
            case Emit(x, ty, p) => more == if x == r then was + [(ty, p)] else was
            case Agent(x, ty, p) => more == if x == r && IsPhase(ty) then was + [(ty, p)] else was
            case Close(x) => more == if x == r then [] else was
            case _ => more == was
  {
    hide Next, IsPhase;
    if a.Agent? { PhaseTypes(a.eventType); }
  }

  /** Over every run of the event stream: a run's log is exactly what was to be published for it since its last
      close, event for event, type and payload. */
  lemma NothingElseIsLogged(maxSize: nat, actions: seq<Action>, r: RunId)
    requires Possible(INITIAL, maxSize, actions)
    ensures Said(Log(After(INITIAL, maxSize, actions).h, r)) == Asked([], actions, r)
  {
    assert Said([]) == [];
    LogIsAsked(INITIAL, maxSize, actions, r);
  }

  // Connections.

  /** A connection is made once: its run, its set and its ticket do not change. */
  lemma StepKeepsTickets(w: World, maxSize: nat, a: Action, c: StreamId)
    requires Enabled(w.s, a) && c in w.s.streams.clients && c in w.h.tickets
    ensures var w' := Step(w, maxSize, a);
            && c in w'.s.streams.clients && c in w'.h.tickets
            && w'.h.tickets[c] == w.h.tickets[c]
            && w'.s.streams.clients[c].run == w.s.streams.clients[c].run
  {
    hide Filter, Sort, GetFrom, Push, NextEvent, Clear;
  }

  lemma {:induction false} RunKeepsTickets(w: World, maxSize: nat, actions: seq<Action>, c: StreamId)
    requires Possible(w, maxSize, actions) && c in w.s.streams.clients && c in w.h.tickets
    ensures var w' := After(w, maxSize, actions);
            && c in w'.s.streams.clients && c in w'.h.tickets
            && w'.h.tickets[c] == w.h.tickets[c]
            && w'.s.streams.clients[c].run == w.s.streams.clients[c].run
    decreases |actions|
  {
    if actions != [] {
      StepKeepsTickets(w, maxSize, actions[0], c);
      hide Step;
      RunKeepsTickets(Step(w, maxSize, actions[0]), maxSize, actions[1..], c);
    }
  }

  lemma JoinTicket(w: World, maxSize: nat, r: RunId, c: StreamId, k: SetId, n: Option<int>, p: string)
    requires Enabled(w.s, Join(r, c, k, n, p))
    ensures var w' := Step(w, maxSize, Join(r, c, k, n, p));
            && c in w'.s.streams.clients && w'.s.streams.clients[c].run == r
            && c in w'.h.tickets && w'.h.tickets[c] == Ticket(Greeting(w.s, r, n, p), Log(w.h, r))
  {
    hide GetFrom, NextEvent;
  }

  lemma TranscriptOf(w: World, maxSize: nat, c: StreamId)
    requires Inv(w, maxSize) && c in w.s.streams.clients
    ensures ClientOk(w.s.streams, w.s.counters, w.h, c)
  {
    hide OrderOk, AllNumbersOk, BuffersKeepTails, StreamsOk, ClientOk;
  }

  lemma LogOwners(w: World, maxSize: nat, r: RunId)
    requires Inv(w, maxSize)
    ensures forall e :: e in Log(w.h, r) ==> e.runId == r
  {
    assert NumbersOk(r, Log(w.h, r), Current(w.s.counters, r), Others(w.h, r));
  }

  lemma OwnSplit(client: Client, greeting: seq<Event>, live: seq<Event>)
    requires client.written == greeting + live && forall e :: e in live ==> e.runId == client.run
    ensures Own(client) == Filter(IsOf(client.run), greeting) + live
  {
    FilterAppend(IsOf(client.run), greeting, live);
    FilterAll(IsOf(client.run), live);
  }

  // Who is reached, and who is not any more.

  /** What a cleanup of d does to other clients of its run: if the set it captured becomes empty but is no
      longer the mapped one, it deletes the mapped one. */
  predicate DeletesSetOf(st: Streams, d: StreamId, c: StreamId)
    requires c in st.clients && d in st.clients
  {
    && st.clients[d].run == st.clients[c].run
    && st.clients[d].joined != st.clients[c].joined
    && Without(MembersOf(st, st.clients[d].joined), {d}) == []
  }

  predicate PublishesTo(a: Action, r: RunId) {
    (a.Emit? || (a.Agent? && a.eventType in AGENT_EVENT_TYPES)) && a.run == r
  }

  /** Everything that can end a registered open client's service. */
  predicate Silences(st: Streams, a: Action, c: StreamId)
    requires c in st.clients && (a.Leave? ==> a.client in st.clients)
  {
    || a == Close(st.clients[c].run)
    || a == Hangup(c)
    || a == Leave(c)
    || (a.Leave? && DeletesSetOf(st, a.client, c))
    || (PublishesTo(a, st.clients[c].run) && st.clients[c].failing)
  }

  /** A registered open client stays so through a step exactly if the step is none of these. */
  lemma StaysLiveIff(w: World, maxSize: nat, a: Action, c: StreamId)
    requires Inv(w, maxSize) && Enabled(w.s, a) && Live(w.s.streams, c)
    ensures Live(Step(w, maxSize, a).s.streams, c) <==> !Silences(w.s.streams, a, c)
  {
    var st := w.s.streams;
    hide Inv, StreamsOk, Live, OrchestratorEvent, DeletesSetOf, Cleanup;
    hide CloseStreams, Connect, WithClient, Record, Clear;
    InvStreams(w, maxSize);
    match a
    case Emit(r, ty, p) => PublishLive(w, maxSize, r, ty, p, c);
    case Agent(r, ty, p) => if ty in AGENT_EVENT_TYPES { PublishLive(w, maxSize, r, ty, p, c); }
    case Leave(d) => LeaveLive(st, d, c);
    case Join(r, x, k, n, p) => JoinLive(w.s, r, x, k, n, p, c);
    case Close(r) => CloseLive(st, r, c);
    case Break(d) => ClientLive(st, d, st.clients[d].(failing := true), c);
    case Hangup(d) => ClientLive(st, d, st.clients[d].(open := false), c);
  }

  lemma InvStreams(w: World, maxSize: nat)
    requires Inv(w, maxSize)
    ensures StreamsOk(w.s.streams)
    ensures forall c :: Live(w.s.streams, c) ==> c in w.s.streams.clients && w.s.streams.clients[c].open
  {
  }

  lemma JoinLive(s: Sse, r: RunId, x: StreamId, k: SetId, n: Option<int>, p: string, c: StreamId)
    requires StreamsOk(s.streams) && x !in s.streams.clients && k !in s.streams.members && c != x
    ensures Live(Connect(s, r, x, k, n, p).streams, c) <==> Live(s.streams, c)
  {
    var es := Greeting(s, r, n, p);
    RegisterGrows(s.streams, r, x, k, es);
    assert Connect(s, r, x, k, n, p).streams == Write(Register(s.streams, r, x, k), x, es);
    hide Greeting, Register, Write, Connect, Live;
    GrownLive(s.streams, Write(Register(s.streams, r, x, k), x, es), r, x, k, c);
  }

  lemma CloseLive(st: Streams, r: RunId, c: StreamId)
    requires StreamsOk(st) && Live(st, c)
    ensures c in st.clients && (Live(CloseStreams(st, r), c) <==> st.clients[c].run != r)
  {
    if Live(CloseStreams(st, r), c) { CloseSilences(st, r, c); }
  }

  lemma ClientLive(st: Streams, d: StreamId, client: Client, c: StreamId)
    requires d in st.clients && client.run == st.clients[d].run && client.joined == st.clients[d].joined
    requires Live(st, c)
    ensures Live(WithClient(st, d, client), c) <==> d != c || client.open
  {
  }

  lemma PublishLive(w: World, maxSize: nat, r: RunId, ty: string, p: string, c: StreamId)
    requires StreamsOk(w.s.streams) && Live(w.s.streams, c)
    ensures Live(OrchestratorEvent(w.s, maxSize, r, ty, p).streams, c)
       <==> !(w.s.streams.clients[c].run == r && w.s.streams.clients[c].failing)
  {
    var e := NextEvent(w.s, r, ty, p);
    BroadcastReaches(w.s.streams, r, e, c);
    if w.s.streams.clients[c].run != r {
      BroadcastElsewhere(w.s.streams, r, e, c);
    }
    hide Push, NextEvent, Broadcast, StreamsOk;
  }

  lemma BroadcastElsewhere(st: Streams, r: RunId, e: Event, c: StreamId)
    requires StreamsOk(st) && Live(st, c) && st.clients[c].run != r
    ensures Live(Broadcast(st, r, e), c)
  {
  }

  lemma LeaveLive(st: Streams, d: StreamId, c: StreamId)
    requires StreamsOk(st) && Live(st, c) && d in st.clients
    ensures Live(Cleanup(st, d), c) <==> d != c && !DeletesSetOf(st, d, c)
  {
    WithoutMembers(MembersOf(st, st.clients[d].joined), {d});
  }

  lemma DiminishedFrozen(st: Streams, st': Streams, c: StreamId)
    requires Diminished(st, st') && c in st.clients && !Live(st, c)
    ensures c in st'.clients && !Live(st', c)
  {
    DiminishedLive(st, st', c);
  }

  lemma JoinElsewhere(s: Sse, r: RunId, x: StreamId, k: SetId, n: Option<int>, p: string, c: StreamId)
    requires c in s.streams.clients && x !in s.streams.clients
    ensures var st := Connect(s, r, x, k, n, p).streams;
            c in st.clients && st.clients[c] == s.streams.clients[c]
  {
    hide GetFrom, NextEvent;
    RegisterGrows(s.streams, r, x, k, Greeting(s, r, n, p));
  }

  /** A client that is closed or unregistered is never sent anything again and never comes back. */
  lemma StepFrozen(w: World, maxSize: nat, a: Action, c: StreamId)
    requires Inv(w, maxSize) && Enabled(w.s, a) && c in w.s.streams.clients && !Live(w.s.streams, c)
    ensures var st := Step(w, maxSize, a).s.streams;
            c in st.clients && !Live(st, c) && st.clients[c].written == w.s.streams.clients[c].written
  {
    hide Inv, StreamsOk, Live, Diminished, OrchestratorEvent, Cleanup, CloseStreams, Connect, WithClient, Record, Clear;
    var st := w.s.streams;
    InvStreams(w, maxSize);
    match a
    case Emit(r, ty, p) => PublishFrozen(w, maxSize, r, ty, p, c);
    case Agent(r, ty, p) => if ty in AGENT_EVENT_TYPES { PublishFrozen(w, maxSize, r, ty, p, c); }
    case Join(r, x, k, n, p) =>
      JoinLive(w.s, r, x, k, n, p, c);
      JoinElsewhere(w.s, r, x, k, n, p, c);
    case Leave(d) =>
      CleanupDiminishes(st, d);
      DiminishedFrozen(st, Cleanup(st, d), c);
    case Close(r) =>
      CloseDiminishes(st, r);
      DiminishedFrozen(st, CloseStreams(st, r), c);
    case Break(d) =>
      ClientDiminishes(st, d, st.clients[d].(failing := true));
      DiminishedFrozen(st, WithClient(st, d, st.clients[d].(failing := true)), c);
    case Hangup(d) =>
      ClientDiminishes(st, d, st.clients[d].(open := false));
      DiminishedFrozen(st, WithClient(st, d, st.clients[d].(open := false)), c);
  }

  lemma PublishFrozen(w: World, maxSize: nat, r: RunId, ty: string, p: string, c: StreamId)
    requires StreamsOk(w.s.streams) && c in w.s.streams.clients && !Live(w.s.streams, c)
    ensures var st := OrchestratorEvent(w.s, maxSize, r, ty, p).streams;
            c in st.clients && !Live(st, c) && st.clients[c].written == w.s.streams.clients[c].written
  {
    var e := NextEvent(w.s, r, ty, p);
    BroadcastReaches(w.s.streams, r, e, c);
    BroadcastDiminishes(w.s.streams, r, e);
    hide Push, NextEvent, Broadcast, StreamsOk, Live;
  }

  lemma {:induction false} Frozen(w: World, maxSize: nat, actions: seq<Action>, c: StreamId)
    requires Inv(w, maxSize) && Possible(w, maxSize, actions) && c in w.s.streams.clients && !Live(w.s.streams, c)
    ensures var st := After(w, maxSize, actions).s.streams;
            c in st.clients && !Live(st, c) && st.clients[c].written == w.s.streams.clients[c].written
    decreases |actions|
  {
    hide Inv, Live, Step;
    if actions != [] {
      StepFrozen(w, maxSize, actions[0], c);
      StepKeeps(w, maxSize, actions[0]);
      Frozen(Step(w, maxSize, actions[0]), maxSize, actions[1..], c);
    }
  }

  /** A step that leaves a client unregistered or closed has written nothing to it. */
  lemma DeadUnwritten(w: World, maxSize: nat, a: Action, c: StreamId)
    requires Inv(w, maxSize) && Enabled(w.s, a) && c in w.s.streams.clients
    requires !Live(Step(w, maxSize, a).s.streams, c)
    ensures var st := Step(w, maxSize, a).s.streams;
            c in st.clients && st.clients[c].written == w.s.streams.clients[c].written
  {
    var st := w.s.streams;
    hide Inv, Live, StreamsOk, Push, NextEvent, Clear, Record;
    if Live(st, c) {
      InvStreams(w, maxSize);
      match a
      case Emit(r, ty, p) => PublishedToDead(w, maxSize, r, ty, p, c);
      case Agent(r, ty, p) => if ty in AGENT_EVENT_TYPES { PublishedToDead(w, maxSize, r, ty, p, c); }
      case Leave(d) => CleanupDiminishes(st, d); CleanupKeepsStreams(st, d);
      case Close(r) =>
      case Join(r, x, k, n, p) =>
        hide GetFrom;
        RegisterGrows(st, r, x, k, Greeting(w.s, r, n, p));
      case _ =>
    } else {
      StepFrozen(w, maxSize, a, c);
    }
  }

  lemma PublishedToDead(w: World, maxSize: nat, r: RunId, ty: string, p: string, c: StreamId)
    requires StreamsOk(w.s.streams) && c in w.s.streams.clients
    requires !Live(OrchestratorEvent(w.s, maxSize, r, ty, p).streams, c)
    ensures var st := OrchestratorEvent(w.s, maxSize, r, ty, p).streams;
            c in st.clients && st.clients[c].written == w.s.streams.clients[c].written
  {
    BroadcastReaches(w.s.streams, r, NextEvent(w.s, r, ty, p), c);
    BroadcastDiminishes(w.s.streams, r, NextEvent(w.s, r, ty, p));
    hide Push, NextEvent, Broadcast, StreamsOk, Live;
  }

  lemma NewcomerLive(w: World, maxSize: nat, a: Action)
    requires Enabled(w.s, a) && a.Join?
    ensures Live(Step(w, maxSize, a).s.streams, a.client)
  {
    RegisterGrows(w.s.streams, a.run, a.client, a.newSet, Greeting(w.s, a.run, a.startSeq, a.payload));
    hide GetFrom, NextEvent;
  }

  // Whose response is ended.

  /** What ends the response of client c. */
  predicate Ends(st: Streams, a: Action, c: StreamId)
    requires c in st.clients
  {
    || a == Hangup(c)
    || a == Leave(c)
    || (a == Close(st.clients[c].run) && Registered(st, c))
    || (PublishesTo(a, st.clients[c].run) && st.clients[c].failing && Registered(st, c))
  }

  /** An open response stays open through a step exactly if the step is none of these; in particular closing a
      run, or failing to reach one of its clients, ends the responses it still knows and no others. */
  lemma ResponseEndsIff(w: World, maxSize: nat, a: Action, c: StreamId)
    requires Inv(w, maxSize) && Enabled(w.s, a) && c in w.s.streams.clients && w.s.streams.clients[c].open
    ensures var st' := Step(w, maxSize, a).s.streams;
            c in st'.clients && (st'.clients[c].open <==> !Ends(w.s.streams, a, c))
  {
    hide Inv, StreamsOk, Record, Push, Clear, GetFrom, Broadcast, CloseStreams, Registered;
    InvStreams(w, maxSize);
    match a
    case Emit(r, ty, p) => BroadcastEnds(w.s.streams, r, NextEvent(w.s, r, ty, p), c);
    case Agent(r, ty, p) => BroadcastEnds(w.s.streams, r, NextEvent(w.s, r, ty, p), c);
    case Close(r) => CloseEnds(w.s.streams, r, c);
    case _ =>
  }

  lemma BroadcastEnds(st: Streams, r: RunId, e: Event, c: StreamId)
    requires StreamsOk(st) && c in st.clients && st.clients[c].open
    ensures var st' := Broadcast(st, r, e);
            && c in st'.clients
            && (st'.clients[c].open <==> !(st.clients[c].run == r && st.clients[c].failing && Registered(st, c)))
  {
  }

  lemma CloseEnds(st: Streams, r: RunId, c: StreamId)
    requires StreamsOk(st) && c in st.clients && st.clients[c].open
    ensures var st' := CloseStreams(st, r);
            c in st'.clients && (st'.clients[c].open <==> !(st.clients[c].run == r && Registered(st, c)))
  {
  }

  // Stream handover.

  /** The last state of a run in which c is still served, if it is at the start: where it ends, or where the
      next step closes or unregisters c. */
  ghost function LastLive(w: World, maxSize: nat, actions: seq<Action>, c: StreamId): World
    requires Possible(w, maxSize, actions)
    decreases |actions|
  {
    if actions == [] || !Live(Step(w, maxSize, actions[0]).s.streams, c) then w
    else LastLive(Step(w, maxSize, actions[0]), maxSize, actions[1..], c)
  }

  /** What c has been sent by the end is what it had been sent by then. */
  lemma {:induction false} ServedUntil(w: World, maxSize: nat, actions: seq<Action>, c: StreamId)
    requires Inv(w, maxSize) && Possible(w, maxSize, actions) && Live(w.s.streams, c)
    requires c in w.s.streams.clients && c in w.h.tickets
    ensures var last := LastLive(w, maxSize, actions, c); var end := After(w, maxSize, actions);
            && Inv(last, maxSize) && Live(last.s.streams, c)
            && c in last.s.streams.clients && c in last.h.tickets && c in end.s.streams.clients
            && last.h.tickets[c] == w.h.tickets[c]
            && last.s.streams.clients[c].run == end.s.streams.clients[c].run == w.s.streams.clients[c].run
            && end.s.streams.clients[c].written == last.s.streams.clients[c].written
            && (Live(end.s.streams, c) <==> last == end)
    decreases |actions|
  {
    hide Inv, Live, Step;
    if actions != [] {
      var w' := Step(w, maxSize, actions[0]);
      StepKeeps(w, maxSize, actions[0]);
      StepKeepsTickets(w, maxSize, actions[0], c);
      if Live(w'.s.streams, c) {
        ServedUntil(w', maxSize, actions[1..], c);
      } else {
        DeadUnwritten(w, maxSize, actions[0], c);
        Frozen(w', maxSize, actions[1..], c);
        RunKeepsTickets(w', maxSize, actions[1..], c);
      }
    }
  }

  /** Of other runs, a greeting holds what is buffered from the number asked for on, if one was. */
  ghost predicate ForeignServed(greeting: seq<Event>, b: Buffers, r: RunId, n: Option<int>) {
    forall e: Event :: e.runId != r ==>
      (e in greeting <==> n.Some? && e.seqNo >= n.value && e in BufferOf(b, e.runId))
  }

  /** Its own run's part of a greeting is the buffered tail it asked for and the connection envelope. */
  ghost predicate GreetingFits(w: World, maxSize: nat, r: RunId, n: Option<int>, p: string, greeting: seq<Event>) {
    var tail := if n.Some? then LastN(Filter(AtLeast(n.value), Log(w.h, r)), maxSize) else [];
    && Filter(IsOf(r), greeting) == tail + [Event("stream_connected", r, Current(w.s.counters, r) + 1, p)]
    && ForeignServed(greeting, w.s.buffers, r, n)
  }

  /** A client c connects to run r in w; this is what it has been sent after `later`. The greeting, of which
      its own run's part is the buffered tail it asked for and the connection envelope; then exactly what its
      run pushed until the client was closed or unregistered, if it was, and until now otherwise. Its own
      run's numbers strictly increase, so nothing is sent both in the replay and live. */
  ghost predicate HandedOver(w: World, maxSize: nat, r: RunId, c: StreamId, k: SetId, n: Option<int>, p: string,
                             later: seq<Action>)
    requires Enabled(w.s, Join(r, c, k, n, p)) && Possible(Step(w, maxSize, Join(r, c, k, n, p)), maxSize, later)
  {
    var joined := Step(w, maxSize, Join(r, c, k, n, p));
    var last := LastLive(joined, maxSize, later, c);
    var end := After(joined, maxSize, later);
    var greeting := Greeting(w.s, r, n, p);
    && GreetingFits(w, maxSize, r, n, p, greeting)
    && Live(joined.s.streams, c)
    && (Live(end.s.streams, c) <==> last == end)
    && Log(w.h, r) <= Log(last.h, r)
    && c in end.s.streams.clients && end.s.streams.clients[c].run == r
    && var client := end.s.streams.clients[c];
       var live := Log(last.h, r)[|Log(w.h, r)|..];
       && client.written == greeting + live
       && Own(client) == Filter(IsOf(r), greeting) + live
       && Increasing(Own(client))
  }

  /** Stream handover, for every client of every run of the service. */
  lemma Handover(maxSize: nat, earlier: seq<Action>, r: RunId, c: StreamId, k: SetId, n: Option<int>, p: string,
                 later: seq<Action>)
    requires Possible(INITIAL, maxSize, earlier) && Enabled(After(INITIAL, maxSize, earlier).s, Join(r, c, k, n, p))
    requires Possible(Step(After(INITIAL, maxSize, earlier), maxSize, Join(r, c, k, n, p)), maxSize, later)
    ensures HandedOver(After(INITIAL, maxSize, earlier), maxSize, r, c, k, n, p, later)
  {
    hide *;
    InitInv(maxSize);
    RunKeeps(INITIAL, maxSize, earlier);
    HandoverFrom(After(INITIAL, maxSize, earlier), maxSize, r, c, k, n, p, later);
  }

  lemma HandoverFrom(w: World, maxSize: nat, r: RunId, c: StreamId, k: SetId, n: Option<int>, p: string,
                     later: seq<Action>)
    requires Inv(w, maxSize) && Enabled(w.s, Join(r, c, k, n, p))
    requires Possible(Step(w, maxSize, Join(r, c, k, n, p)), maxSize, later)
    ensures HandedOver(w, maxSize, r, c, k, n, p, later)
  {
    var joined := Step(w, maxSize, Join(r, c, k, n, p));
    hide Inv, Enabled, Possible, Step, After, LastLive, Live, Greeting, NextEvent, Filter, LastN, Log, Own, Increasing;
    hide GreetingFits;
    StepKeeps(w, maxSize, Join(r, c, k, n, p));
    JoinTicket(w, maxSize, r, c, k, n, p);
    NewcomerLive(w, maxSize, Join(r, c, k, n, p));
    ServedUntil(joined, maxSize, later, c);
    Greets(w, maxSize, r, n, p);
    var last := LastLive(joined, maxSize, later, c);
    LiveTranscript(last, maxSize, c);
    SameOwn(last.s.streams.clients[c], After(joined, maxSize, later).s.streams.clients[c]);
  }

  /** A client's own part of its greeting, in terms of the log. */
  lemma OwnTail(w: World, maxSize: nat, r: RunId, n: Option<int>, p: string)
    requires Inv(w, maxSize)
    ensures Filter(IsOf(r), Greeting(w.s, r, n, p))
         == (if n.Some? then LastN(Filter(AtLeast(n.value), Log(w.h, r)), maxSize) else [])
            + [Event("stream_connected", r, Current(w.s.counters, r) + 1, p)]
  {
    BufferNumbers(w.s.buffers, w.s.counters, w.h, maxSize, r);
    OwnGreeting(w.s, w.h, r, n, p);
    assert BufferOf(w.s.buffers, r) == LastN(Log(w.h, r), maxSize);
    assert NumbersOk(r, Log(w.h, r), Current(w.s.counters, r), Others(w.h, r));
    hide Inv, Greeting, Filter, LastN, NextEvent;
    if n.Some? { TailOfLast(Log(w.h, r), maxSize, n.value); }
  }

  lemma Greets(w: World, maxSize: nat, r: RunId, n: Option<int>, p: string)
    requires Inv(w, maxSize)
    ensures GreetingFits(w, maxSize, r, n, p, Greeting(w.s, r, n, p))
  {
    hide Inv, Greeting, Filter, LastN, Log, Current, ForeignServed;
    OwnTail(w, maxSize, r, n, p);
    ForeignPart(w, maxSize, r, n, p);
  }

  /** What it gets of other runs. */
  lemma ForeignPart(w: World, maxSize: nat, r: RunId, n: Option<int>, p: string)
    requires Inv(w, maxSize)
    ensures ForeignServed(Greeting(w.s, r, n, p), w.s.buffers, r, n)
  {
    hide GetFrom;
    if n.Some? {
      forall e: Event
        ensures e in GetFrom(w.s.buffers, n.value) <==> e.seqNo >= n.value && e in BufferOf(w.s.buffers, e.runId)
      {
        ReplayMember(w.s.buffers, n.value, e);
      }
    }
  }

  lemma LiveTranscript(w: World, maxSize: nat, c: StreamId)
    requires Inv(w, maxSize) && Live(w.s.streams, c) && c in w.s.streams.clients && c in w.h.tickets
    ensures var client := w.s.streams.clients[c]; var ticket := w.h.tickets[c]; var log := Log(w.h, client.run);
            && ticket.before <= log
            && client.written == ticket.greeting + log[|ticket.before|..]
            && Own(client) == Filter(IsOf(client.run), ticket.greeting) + log[|ticket.before|..]
            && Increasing(Own(client))
  {
    TranscriptOf(w, maxSize, c);
    LogOwners(w, maxSize, w.s.streams.clients[c].run);
    hide Inv, Live, Filter, Increasing, Own, UpTo;
    var client, ticket := w.s.streams.clients[c], w.h.tickets[c];
    OwnSplit(client, ticket.greeting, Log(w.h, client.run)[|ticket.before|..]);
  }

  lemma SameOwn(client: Client, client': Client)
    requires client'.run == client.run && client'.written == client.written
    ensures Own(client') == Own(client)
  {
  }

  lemma CloseFreezes(w: World, maxSize: nat, r: RunId, later: seq<Action>, c: StreamId)
    requires Inv(w, maxSize) && Possible(Step(w, maxSize, Close(r)), maxSize, later)
    requires c in w.s.streams.clients && w.s.streams.clients[c].run == r
    ensures var st' := After(Step(w, maxSize, Close(r)), maxSize, later).s.streams;
            c in st'.clients && !Live(st', c) && st'.clients[c].written == w.s.streams.clients[c].written
  {
    hide Inv, Live, After, Possible;
    StepKeeps(w, maxSize, Close(r));
    if Live(CloseStreams(w.s.streams, r), c) { CloseSilences(w.s.streams, r, c); }
    Frozen(Step(w, maxSize, Close(r)), maxSize, later, c);
  }

  /** Closing a run leaves no live client of it, so nothing is written to any of them afterwards. */
  lemma NothingAfterClose(maxSize: nat, earlier: seq<Action>, r: RunId, later: seq<Action>, c: StreamId)
    requires Possible(INITIAL, maxSize, earlier)
    requires Possible(Step(After(INITIAL, maxSize, earlier), maxSize, Close(r)), maxSize, later)
    requires var st := After(INITIAL, maxSize, earlier).s.streams; c in st.clients && st.clients[c].run == r
    ensures var st := After(INITIAL, maxSize, earlier).s.streams;
            var st' := After(Step(After(INITIAL, maxSize, earlier), maxSize, Close(r)), maxSize, later).s.streams;
            c in st'.clients && !Live(st', c) && st'.clients[c].written == st.clients[c].written
  {
    hide *;
    InitInv(maxSize);
    RunKeeps(INITIAL, maxSize, earlier);
    CloseFreezes(After(INITIAL, maxSize, earlier), maxSize, r, later, c);
  }

  /** The stale cleanup: once it has deleted a newer set, the clients of that set stay open and are never
      sent anything again, whatever their run does. */
  lemma StaleCleanupSilences(w: World, maxSize: nat, d: StreamId, c: StreamId, later: seq<Action>)
    requires Inv(w, maxSize) && Live(w.s.streams, c) && d in w.s.streams.clients && DeletesSetOf(w.s.streams, d, c)
    requires Possible(Step(w, maxSize, Leave(d)), maxSize, later)
    ensures Step(w, maxSize, Leave(d)).s.streams.clients[c].open
    ensures var st' := After(Step(w, maxSize, Leave(d)), maxSize, later).s.streams;
            c in st'.clients && !Live(st', c) && st'.clients[c].written == w.s.streams.clients[c].written
  {
    hide Inv, After, Possible, Without;
    StaysLiveIff(w, maxSize, Leave(d), c);
    StepKeeps(w, maxSize, Leave(d));
    Frozen(Step(w, maxSize, Leave(d)), maxSize, later, c);
  }

  /** And it does happen: on a run with no clients, let one connect and disconnect, let another connect,
      and run the first one's cleanup again (as the handler does when both the run's end and the
      disconnection are noticed). */
  lemma CleanupTwiceIsStale(s: Sse, maxSize: nat, r: RunId, d: StreamId, kd: SetId, c: StreamId, kc: SetId)
    requires r !in s.streams.registry && d !in s.streams.clients && c !in s.streams.clients && d != c
    requires kd !in s.streams.members && kc !in s.streams.members && kd != kc
    ensures Enabled(s, Join(r, d, kd, None, ""))
    ensures var s1 := Next(s, maxSize, Join(r, d, kd, None, ""));
            Enabled(s1, Leave(d)) && Enabled(Next(s1, maxSize, Leave(d)), Join(r, c, kc, None, ""))
    ensures var s1 := Next(s, maxSize, Join(r, d, kd, None, ""));
            var s3 := Next(Next(s1, maxSize, Leave(d)), maxSize, Join(r, c, kc, None, ""));
            d in s3.streams.clients && Live(s3.streams, c) && DeletesSetOf(s3.streams, d, c)
  {
    hide GetFrom, NextEvent;
    var s1 := Next(s, maxSize, Join(r, d, kd, None, ""));
    assert s1.streams.registry == s.streams.registry[r := kd] && MembersOf(s1.streams, kd) == [d];
    var s2 := Next(s1, maxSize, Leave(d));
    assert Without([d], {d}) == [];
    assert r !in s2.streams.registry && MembersOf(s2.streams, kd) == [];
    assert kc !in s2.streams.members && c !in s2.streams.clients;
    var s3 := Next(s2, maxSize, Join(r, c, kc, None, ""));
    assert s3.streams.registry[r] == kc && MembersOf(s3.streams, kc) == [c];
    assert s3.streams.clients[d] == s2.streams.clients[d];
  }
}

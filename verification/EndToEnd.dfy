/** The executor and the event stream together: what the service emits, carried over the event stream among
    whatever clients come and go, and what each client is finally told about the end of its run. */
module EndToEnd {
  import opened Collections
  import opened RunTypes
  import opened StableSort
  import opened SseSpec
  import opened SseReplay
  import opened SseHistory
  import opened SseSteps
  import opened SseTheorems
  import E = ServiceSpec
  import ServiceTheorems
  import M = ManagerSpec

  type Kind = E.TerminalKind

  type Emission = E.Emission

  function TypeName(k: Kind): string {
    match k
    case RunCompleted => "run_completed"
    case RunFailed => "run_failed"
    case RunCancelled => "run_cancelled"
    case RunTimedOut => "run_timed_out"
  }

  function KindNamed(eventType: string): Option<Kind> {
    if eventType == "run_completed" then Some(E.RunCompleted)
    else if eventType == "run_failed" then Some(E.RunFailed)
    else if eventType == "run_cancelled" then Some(E.RunCancelled)
    else if eventType == "run_timed_out" then Some(E.RunTimedOut)
    else None
  }

  /** The terminal events among some events, in order. */
  function Kinds(es: seq<Event>): seq<Kind> {
    if es == [] then []
    else
      var k := KindNamed(es[0].eventType);
      (if k.Some? then [k.value] else []) + Kinds(es[1..])
  }

  /** The call on the event stream that an emission is. */
  predicate Is(a: Action, e: Emission) {
    match e
    case Queued(r, _) => a.Emit? && a.run == r && a.eventType == "run_queued"
    case Started(r) => a.Emit? && a.run == r && a.eventType == "run_started"
    case Agent(r) => a.Agent? && a.run == r
    case Terminal(r, k) => a.Emit? && a.run == r && a.eventType == TypeName(k)
    case Closed(r) => a == Close(r)
  }

  predicate FromServer(a: Action) { a.Emit? || a.Agent? || a.Close? }

  /** The emissions in their order, interleaved with clients connecting, breaking and leaving. */
  predicate Carries(actions: seq<Action>, es: seq<Emission>)
    decreases |actions|
  {
    if actions == [] then es == []
    else if FromServer(actions[0]) then es != [] && Is(actions[0], es[0]) && Carries(actions[1..], es[1..])
    else Carries(actions[1..], es)
  }

  lemma NamesRead(k: Kind)
    ensures KindNamed(TypeName(k)) == Some(k)
  {
    assert "run_completed"[4] == 'c' && "run_failed"[4] == 'f';
    assert "run_cancelled"[5] == 'a' && "run_timed_out"[4] == 't';
    assert "run_completed"[5] == 'o' && "run_cancelled"[4] == 'c';
  }

  /** No other event type reads as a terminal one. */
  lemma OtherNames(eventType: string)
    requires eventType in AGENT_EVENT_TYPES || eventType in {STREAM_CONNECTED, "run_queued", "run_started"}
    ensures KindNamed(eventType).None?
  {
    assert "run_completed"[0] == 'r' && "run_failed"[0] == 'r';
    assert "run_cancelled"[0] == 'r' && "run_timed_out"[0] == 'r';
    if eventType == "run_queued" || eventType == "run_started" {
      assert eventType[4] == 'q' || eventType[4] == 's';
      assert "run_completed"[4] == 'c' && "run_failed"[4] == 'f';
      assert "run_cancelled"[4] == 'c' && "run_timed_out"[4] == 't';
    } else {
      assert eventType[0] in {'a', 't', 'm', 's'};
    }
  }

  // Kinds and sequences.

  lemma {:induction false} KindsAppend(a: seq<Event>, b: seq<Event>)
    ensures Kinds(a + b) == Kinds(a) + Kinds(b)
  {
    if a == [] {
      assert a + b == b;
    } else {
      assert (a + b)[1..] == a[1..] + b && (a + b)[0] == a[0];
      hide KindNamed;
      KindsAppend(a[1..], b);
    }
  }

  /** A suffix holds no more than the whole. */
  lemma KindsOfSuffix(s: seq<Event>, i: nat)
    requires i <= |s|
    ensures multiset(Kinds(s[i..])) <= multiset(Kinds(s))
  {
    assert s == s[..i] + s[i..];
    KindsAppend(s[..i], s[i..]);
  }

  lemma LastIsSuffix(log: seq<Event>, maxSize: nat)
    requires Increasing(log)
    ensures var last := LastN(log, maxSize);
            |last| <= |log| && last == log[|log| - |last|..] && Increasing(last)
  {
  }

  lemma KindsOfTail(log: seq<Event>, maxSize: nat, n: int)
    requires Increasing(log)
    ensures multiset(Kinds(Filter(AtLeast(n), LastN(log, maxSize)))) <= multiset(Kinds(log))
  {
    hide *;
    LastIsSuffix(log, maxSize);
    var last := LastN(log, maxSize);
    TailIsSuffix(last, n);
    KindsOfSuffix(log, |log| - |last|);
    KindsOfSuffix(last, |last| - |Filter(AtLeast(n), last)|);
  }

  // What has been told.

  ghost predicate LogsTold(h: History, sent: seq<Emission>) {
    forall r :: multiset(Kinds(Log(h, r))) <= multiset(E.TerminalsOf(sent, r))
  }

  /** A greeting repeats nothing that was not in the log. */
  ghost predicate TicketOk(client: Client, ticket: Ticket) {
    multiset(Kinds(Filter(IsOf(client.run), ticket.greeting))) <= multiset(Kinds(ticket.before))
  }

  ghost predicate ClientTold(client: Client, sent: seq<Emission>) {
    multiset(Kinds(Own(client))) <= multiset(E.TerminalsOf(sent, client.run))
  }

  ghost predicate TicketsOk(w: World) {
    forall c :: c in w.s.streams.clients ==> c in w.h.tickets && TicketOk(w.s.streams.clients[c], w.h.tickets[c])
  }

  ghost predicate Told(w: World, sent: seq<Emission>) {
    && LogsTold(w.h, sent)
    && TicketsOk(w)
    && (forall c :: c in w.s.streams.clients ==> ClientTold(w.s.streams.clients[c], sent))
  }

  /** Nobody who is caught up has been told more than the log. */
  lemma LiveTold(w: World, maxSize: nat, sent: seq<Emission>, c: StreamId)
    requires Inv(w, maxSize) && LogsTold(w.h, sent) && TicketsOk(w) && Live(w.s.streams, c)
    ensures c in w.s.streams.clients && ClientTold(w.s.streams.clients[c], sent)
  {
    var client := w.s.streams.clients[c];
    var ticket, log := w.h.tickets[c], Log(w.h, client.run);
    TranscriptOf(w, maxSize, c);
    LogOwners(w, maxSize, client.run);
    hide OrderOk, AllNumbersOk, BuffersKeepTails, StreamsOk, TranscriptsOk, Inv;
    hide Live, Increasing, Filter, E.TerminalsOf;
    hide TicketOk, Own, Kinds;
    CaughtUpTold(client, ticket, log);
  }

  lemma CaughtUpTold(client: Client, ticket: Ticket, log: seq<Event>)
    requires ticket.before <= log && client.written == ticket.greeting + log[|ticket.before|..]
    requires (forall e :: e in log ==> e.runId == client.run) && TicketOk(client, ticket)
    ensures multiset(Kinds(Own(client))) <= multiset(Kinds(log))
  {
    var live := log[|ticket.before|..];
    assert log == ticket.before + live;
    hide Kinds, Filter, Own;
    OwnSplit(client, ticket.greeting, live);
    KindsAppend(Filter(IsOf(client.run), ticket.greeting), live);
    KindsAppend(ticket.before, live);
  }

  // One step.

  lemma SentGrows(sent: seq<Emission>, e: Emission)
    ensures forall r :: E.TerminalsOf(sent + [e], r)
                     == E.TerminalsOf(sent, r) + if e.Terminal? && e.run == r then [e.kind] else []
  {
    forall r ensures E.TerminalsOf(sent + [e], r)
                  == E.TerminalsOf(sent, r) + if e.Terminal? && e.run == r then [e.kind] else []
    {
      assert (sent + [e])[..|sent|] == sent;
    }
  }

  lemma PublishTold(h: History, sent: seq<Emission>, e: Emission, event: Event)
    requires LogsTold(h, sent) && event.runId == e.run
    requires KindNamed(event.eventType) == if e.Terminal? then Some(e.kind) else None
    ensures LogsTold(Pushed(h, event), sent + [e])
  {
    SentGrows(sent, e);
    forall r ensures multiset(Kinds(Log(Pushed(h, event), r))) <= multiset(E.TerminalsOf(sent + [e], r)) {
      assert multiset(Kinds(Log(h, r))) <= multiset(E.TerminalsOf(sent, r));
      hide *;
      PushedLog(h, event, r);
      OneMoreKind(Log(h, r), event);
    }
  }

  lemma OneMoreKind(log: seq<Event>, event: Event)
    ensures var k := KindNamed(event.eventType); Kinds(log + [event]) == Kinds(log) + if k.Some? then [k.value] else []
  {
    KindsAppend(log, [event]);
    assert [event][1..] == [];
    assert Kinds([event]) == if KindNamed(event.eventType).Some? then [KindNamed(event.eventType).value] else [];
  }

  /** What a server call does to the logs told. */
  lemma ServerLogsTold(w: World, maxSize: nat, a: Action, sent: seq<Emission>, e: Emission)
    requires LogsTold(w.h, sent) && FromServer(a) && Is(a, e)
    ensures LogsTold(Record(w.h, w.s, a), sent + [e])
  {
    match a
    case Emit(r, ty, p) =>
      if e.Terminal? { NamesRead(e.kind); } else { OtherNames(ty); }
      PublishTold(w.h, sent, e, NextEvent(w.s, r, ty, p));
    case Agent(r, ty, p) =>
      if ty in AGENT_EVENT_TYPES {
        OtherNames(ty);
        PublishTold(w.h, sent, e, NextEvent(w.s, r, ty, p));
      } else {
        SentGrows(sent, e);
        assert forall x :: Log(Skipped(w.h, r), x) == Log(w.h, x);
      }
    case Close(r) =>
      SentGrows(sent, e);
      forall x ensures multiset(Kinds(Log(Closed(w.h, r), x))) <= multiset(E.TerminalsOf(sent + [e], x)) {
        assert multiset(Kinds(Log(w.h, x))) <= multiset(E.TerminalsOf(sent, x));
      }
  }

  lemma NewTicketOk(w: World, maxSize: nat, r: RunId, n: Option<int>, p: string, client: Client)
    requires Inv(w, maxSize) && client.run == r
    ensures TicketOk(client, Ticket(Greeting(w.s, r, n, p), Log(w.h, r)))
  {
    BufferNumbers(w.s.buffers, w.s.counters, w.h, maxSize, r);
    OwnGreeting(w.s, w.h, r, n, p);
    assert BufferOf(w.s.buffers, r) == LastN(Log(w.h, r), maxSize);
    assert NumbersOk(r, Log(w.h, r), Current(w.s.counters, r), Others(w.h, r));
    hide Inv, OrderOk, Greeting, Filter, LastN;
    if n.Some? { KindsOfTail(Log(w.h, r), maxSize, n.value); }
    OtherNames(STREAM_CONNECTED);
    var tail := if n.Some? then Filter(AtLeast(n.value), BufferOf(w.s.buffers, r)) else [];
    OneMoreKind(tail, NextEvent(w.s, r, STREAM_CONNECTED, p));
  }

  lemma StepTickets(w: World, maxSize: nat, a: Action)
    requires Inv(w, maxSize) && Enabled(w.s, a) && TicketsOk(w)
    ensures TicketsOk(Step(w, maxSize, a))
  {
    var w' := Step(w, maxSize, a);
    hide Inv, Step, TicketOk;
    forall c | c in w'.s.streams.clients
      ensures c in w'.h.tickets && TicketOk(w'.s.streams.clients[c], w'.h.tickets[c])
    {
      if c in w.s.streams.clients {
        StepKeepsTickets(w, maxSize, a, c);
        SameRunTicket(w.s.streams.clients[c], w'.s.streams.clients[c], w.h.tickets[c]);
      } else {
        OnlyJoinAdds(w, maxSize, a, c);
        JoinTicket(w, maxSize, a.run, c, a.newSet, a.startSeq, a.payload);
        NewTicketOk(w, maxSize, a.run, a.startSeq, a.payload, w'.s.streams.clients[c]);
      }
    }
  }

  lemma SameRunTicket(client: Client, client': Client, ticket: Ticket)
    requires TicketOk(client, ticket) && client'.run == client.run
    ensures TicketOk(client', ticket)
  {
  }

  lemma OnlyJoinAdds(w: World, maxSize: nat, a: Action, c: StreamId)
    requires Enabled(w.s, a) && c !in w.s.streams.clients
    requires c in Step(w, maxSize, a).s.streams.clients
    ensures a.Join? && a.client == c
  {
    hide GetFrom, NextEvent, Push, Clear, Record;
  }

  /** A client as it stands after a step: told what it was told before, or caught up with the log. */
  lemma StepTold(w: World, maxSize: nat, a: Action, sent: seq<Emission>, sent': seq<Emission>)
    requires Inv(w, maxSize) && Enabled(w.s, a) && Told(w, sent)
    requires forall r :: multiset(E.TerminalsOf(sent, r)) <= multiset(E.TerminalsOf(sent', r))
    requires LogsTold(Step(w, maxSize, a).h, sent')
    ensures Told(Step(w, maxSize, a), sent')
  {
    var w' := Step(w, maxSize, a);
    StepTickets(w, maxSize, a);
    StepKeeps(w, maxSize, a);
    hide Inv, Step, TicketsOk, LogsTold, Live, E.TerminalsOf, Own;
    forall c | c in w'.s.streams.clients ensures ClientTold(w'.s.streams.clients[c], sent') {
      if Live(w'.s.streams, c) {
        LiveTold(w', maxSize, sent', c);
      } else if c in w.s.streams.clients {
        DeadUnwritten(w, maxSize, a, c);
        StepKeepsRun(w, maxSize, a, c);
        SameOwn(w.s.streams.clients[c], w'.s.streams.clients[c]);
      } else {
        OnlyJoinAdds(w, maxSize, a, c);
        NewcomerLive(w, maxSize, a);
      }
    }
  }

  lemma StepKeepsRun(w: World, maxSize: nat, a: Action, c: StreamId)
    requires Inv(w, maxSize) && Enabled(w.s, a) && c in w.s.streams.clients
    ensures var st := Step(w, maxSize, a).s.streams;
            c in st.clients && st.clients[c].run == w.s.streams.clients[c].run
  {
    TranscriptOf(w, maxSize, c);
    StepKeepsTickets(w, maxSize, a, c);
  }

  lemma {:induction false} RunTold(w: World, maxSize: nat, actions: seq<Action>,
                                   sent: seq<Emission>, es: seq<Emission>)
    requires Inv(w, maxSize) && Told(w, sent)
    requires Possible(w, maxSize, actions) && Carries(actions, es)
    ensures Told(After(w, maxSize, actions), sent + es)
    decreases |actions|
  {
    hide Inv, Told, Enabled;
    if actions == [] {
      assert sent + es == sent;
    } else {
      var a, w' := actions[0], Step(w, maxSize, actions[0]);
      StepKeeps(w, maxSize, a);
      if FromServer(a) {
        ServerTold(w, maxSize, a, sent, es[0]);
        RunTold(w', maxSize, actions[1..], sent + [es[0]], es[1..]);
        assert sent + [es[0]] + es[1..] == sent + es;
      } else {
        ClientActTold(w, maxSize, a, sent);
        RunTold(w', maxSize, actions[1..], sent, es);
      }
    }
  }

  lemma ServerTold(w: World, maxSize: nat, a: Action, sent: seq<Emission>, e: Emission)
    requires Inv(w, maxSize) && Enabled(w.s, a) && Told(w, sent) && FromServer(a) && Is(a, e)
    ensures Told(Step(w, maxSize, a), sent + [e])
  {
    ServerLogsTold(w, maxSize, a, sent, e);
    SentGrows(sent, e);
    hide Inv, TicketsOk, LogsTold, ClientTold, E.TerminalsOf, Record, Next, Is;
    StepTold(w, maxSize, a, sent, sent + [e]);
  }

  lemma ClientActTold(w: World, maxSize: nat, a: Action, sent: seq<Emission>)
    requires Inv(w, maxSize) && Enabled(w.s, a) && Told(w, sent) && !FromServer(a)
    ensures Told(Step(w, maxSize, a), sent)
  {
    assert forall r :: Log(Record(w.h, w.s, a), r) == Log(w.h, r);
    hide Inv, TicketsOk, ClientTold, E.TerminalsOf, Next, Log, Kinds;
    StepTold(w, maxSize, a, sent, sent);
  }

  /** The service has come to e by these steps, and the event stream, carrying what the service emitted among
      whatever its clients did, to w by these actions. */
  ghost predicate Together(cfg: M.Config, steps: seq<E.Action>, e: E.World, maxSize: nat,
                           actions: seq<Action>, w: World)
  {
    && E.Possible(E.INITIAL, cfg, steps) && E.After(E.INITIAL, cfg, steps) == e
    && Possible(INITIAL, maxSize, actions) && After(INITIAL, maxSize, actions) == w
    && Carries(actions, e.s.out)
  }

  /** Whatever the executor, its users and its timers do, and whatever the clients of the event stream do: a
      client is never told more about the end of its run than the executor announced. So it sees nothing of
      the kind before the run has ended; at most one terminal event, unless the run is CANCELLED, its
      once-guard was dropped and it was cancelled again; at most two even then; and each of them names the
      final state unless the run was cancelled under the reason "timeout". */
  lemma ClientsToldOnce(cfg: M.Config, steps: seq<E.Action>, e: E.World, maxSize: nat, actions: seq<Action>, w: World,
                        c: StreamId)
    requires Together(cfg, steps, e, maxSize, actions, w)
    requires c in w.s.streams.clients && w.s.streams.clients[c].run in e.s.m.runs
    ensures ToldAtMost(e, w.s.streams.clients[c])
  {
    var client := w.s.streams.clients[c];
    assert w == After(INITIAL, maxSize, actions) && e == E.After(E.INITIAL, cfg, steps);
    hide *;
    ClientsTold(maxSize, actions, e.s.out, c);
    ServiceTheorems.TerminalEventsBounded(cfg, steps, client.run);
    ServiceTheorems.TerminalKindMatchesIff(cfg, steps, client.run);
    Included(Kinds(Own(client)), E.TerminalsOf(e.s.out, client.run));
    AtMost(e, client);
  }

  ghost predicate ToldAtMost(e: E.World, client: Client) {
    var r := client.run;
    var told := Kinds(Own(client));
    && r in e.s.m.runs
    && multiset(told) <= multiset(E.TerminalsOf(e.s.out, r))
    && (told != [] ==> IsTerminalState(e.s.m.runs[r].state))
    && (|told| >= 2 ==> e.s.m.runs[r].state == CANCELLED && r in e.h.dropped && r in e.s.guard)
    && |told| <= 2
    && (r !in e.h.spoofed ==> forall k :: k in told ==> E.KindOf(e.s.m.runs[r].state) == Some(k))
  }

  lemma AtMost(e: E.World, client: Client)
    requires client.run in e.s.m.runs
    requires var sent := E.TerminalsOf(e.s.out, client.run); var told := Kinds(Own(client));
             var state := e.s.m.runs[client.run].state;
             && multiset(told) <= multiset(sent) && |told| <= |sent| <= 2 && (forall k :: k in told ==> k in sent)
             && (!IsTerminalState(state) ==> sent == [])
             && (|sent| >= 2 ==> state == CANCELLED && client.run in e.h.dropped && client.run in e.s.guard)
             && (client.run !in e.h.spoofed ==> forall k :: k in sent ==> E.KindOf(state) == Some(k))
    ensures ToldAtMost(e, client)
  {
    hide Kinds, Own, E.TerminalsOf;
  }

  // And no less.

  lemma {:induction false} RunSplits(w: World, maxSize: nat, a: seq<Action>, b: seq<Action>)
    requires Possible(w, maxSize, a + b)
    ensures Possible(w, maxSize, a) && Possible(After(w, maxSize, a), maxSize, b)
    ensures After(w, maxSize, a + b) == After(After(w, maxSize, a), maxSize, b)
    decreases |a|
  {
    hide Step, Enabled;
    if a == [] {
      assert a + b == b;
    } else {
      assert (a + b)[1..] == a[1..] + b;
      RunSplits(Step(w, maxSize, a[0]), maxSize, a[1..], b);
    }
  }

  /** What has been sent stays sent. */
  lemma StepGrows(w: World, maxSize: nat, a: Action, c: StreamId)
    requires Inv(w, maxSize) && Enabled(w.s, a) && c in w.s.streams.clients
    ensures var st := Step(w, maxSize, a).s.streams;
            && c in st.clients && st.clients[c].run == w.s.streams.clients[c].run
            && w.s.streams.clients[c].written <= st.clients[c].written
  {
    hide Inv, Live, StreamsOk, Record, OrchestratorEvent, Connect, Cleanup, CloseStreams, Clear;
    StepKeepsRun(w, maxSize, a, c);
    InvStreams(w, maxSize);
    match a
    case Emit(r, ty, p) => PublishGrows(w.s, maxSize, r, ty, p, c);
    case Agent(r, ty, p) => PublishGrows(w.s, maxSize, r, ty, p, c);
    case Join(r, x, k, n, p) => JoinElsewhere(w.s, r, x, k, n, p, c);
    case Leave(d) => CleanupDiminishes(w.s.streams, d);
    case Close(r) => CloseDiminishes(w.s.streams, r);
    case _ =>
  }

  lemma PublishGrows(s: Sse, maxSize: nat, r: RunId, ty: string, p: string, c: StreamId)
    requires StreamsOk(s.streams) && c in s.streams.clients
    ensures var st := OrchestratorEvent(s, maxSize, r, ty, p).streams;
            c in st.clients && s.streams.clients[c].written <= st.clients[c].written
  {
    BroadcastGrows(s.streams, r, NextEvent(s, r, ty, p), c);
    hide Push, NextEvent, Broadcast, StreamsOk;
  }

  lemma BroadcastGrows(st: Streams, r: RunId, e: Event, c: StreamId)
    requires StreamsOk(st) && c in st.clients
    ensures c in Broadcast(st, r, e).clients && st.clients[c].written <= Broadcast(st, r, e).clients[c].written
  {
    BroadcastDiminishes(st, r, e);
    BroadcastReaches(st, r, e, c);
    hide Broadcast, StreamsOk, Live;
  }

  lemma {:induction false} RunGrows(w: World, maxSize: nat, actions: seq<Action>, c: StreamId)
    requires Inv(w, maxSize) && Possible(w, maxSize, actions) && c in w.s.streams.clients
    ensures var st := After(w, maxSize, actions).s.streams;
            && c in st.clients && st.clients[c].run == w.s.streams.clients[c].run
            && w.s.streams.clients[c].written <= st.clients[c].written
    decreases |actions|
  {
    hide Inv, Step, Enabled;
    if actions != [] {
      StepGrows(w, maxSize, actions[0], c);
      StepKeeps(w, maxSize, actions[0]);
      RunGrows(Step(w, maxSize, actions[0]), maxSize, actions[1..], c);
    }
  }

  /** An announcement reaches every client of its run that is registered, open and not failing. */
  lemma AnnouncementArrives(w: World, maxSize: nat, a: Action, r: RunId, k: Kind, c: StreamId)
    requires Inv(w, maxSize) && Is(a, E.Terminal(r, k))
    requires Live(w.s.streams, c) && w.s.streams.clients[c].run == r && !w.s.streams.clients[c].failing
    ensures Enabled(w.s, a) && c in Step(w, maxSize, a).s.streams.clients
    ensures k in Kinds(Own(Step(w, maxSize, a).s.streams.clients[c]))
  {
    assert a.Emit?;
    hide *;
    InvStreams(w, maxSize);
    var e := NextEvent(w.s, r, a.eventType, a.payload);
    AnnouncementSent(w, maxSize, a, r, k, c);
    OwnOneMore(w.s.streams.clients[c], Step(w, maxSize, a).s.streams.clients[c], e);
    NamesRead(k);
    OneMoreKind(Own(w.s.streams.clients[c]), e);
  }

  lemma AnnouncementSent(w: World, maxSize: nat, a: Action, r: RunId, k: Kind, c: StreamId)
    requires StreamsOk(w.s.streams) && Is(a, E.Terminal(r, k)) && c in w.s.streams.clients
    requires Live(w.s.streams, c) && w.s.streams.clients[c].run == r && !w.s.streams.clients[c].failing
    ensures a.Emit? && Enabled(w.s, a)
    ensures var st := Step(w, maxSize, a).s.streams; var e := NextEvent(w.s, r, a.eventType, a.payload);
            && e.runId == r && e.eventType == TypeName(k)
            && c in st.clients && st.clients[c].run == r
            && st.clients[c].written == w.s.streams.clients[c].written + [e]
  {
    hide StreamsOk, Live, Broadcast, Push, TypeName, Record;
    BroadcastReaches(w.s.streams, r, NextEvent(w.s, r, a.eventType, a.payload), c);
    BroadcastDiminishes(w.s.streams, r, NextEvent(w.s, r, a.eventType, a.payload));
  }

  lemma OwnOneMore(client: Client, client': Client, e: Event)
    requires client'.run == client.run == e.runId && client'.written == client.written + [e]
    ensures Own(client') == Own(client) + [e]
  {
    OwnSplit(client', client.written, [e]);
  }

  lemma KindStays(client: Client, client': Client, k: Kind)
    requires client'.run == client.run && client.written <= client'.written && k in Kinds(Own(client))
    ensures k in Kinds(Own(client'))
  {
    var more := client'.written[|client.written|..];
    assert client'.written == client.written + more;
    FilterAppend(IsOf(client.run), client.written, more);
    KindsAppend(Own(client), Filter(IsOf(client.run), more));
  }

  /** The other half: the executor's announcement of the end of run r, carried by `announcement`, is told to
      every client of r that is then registered, open and not failing, and stays told; and for a run that has
      had one announcement it is all such a client is told of the end, ever. */
  lemma LiveClientsTold(cfg: M.Config, steps: seq<E.Action>, e: E.World, maxSize: nat, earlier: seq<Action>, w: World,
                        announcement: Action, later: seq<Action>, end: World, c: StreamId, r: RunId, k: Kind)
    requires Together(cfg, steps, e, maxSize, earlier + ([announcement] + later), end)
    requires Possible(INITIAL, maxSize, earlier) && After(INITIAL, maxSize, earlier) == w
    requires Is(announcement, E.Terminal(r, k))
    requires Live(w.s.streams, c) && w.s.streams.clients[c].run == r && !w.s.streams.clients[c].failing
    ensures c in end.s.streams.clients && end.s.streams.clients[c].run == r
    ensures k in Kinds(Own(end.s.streams.clients[c])) && k in E.TerminalsOf(e.s.out, r)
    ensures |E.TerminalsOf(e.s.out, r)| == 1 ==> Kinds(Own(end.s.streams.clients[c])) == [k]
  {
    var actions := earlier + ([announcement] + later);
    assert Possible(INITIAL, maxSize, actions) && After(INITIAL, maxSize, actions) == end && Carries(actions, e.s.out);
    hide *;
    InitInv(maxSize);
    RunSplits(INITIAL, maxSize, earlier, [announcement] + later);
    RunKeeps(INITIAL, maxSize, earlier);
    AnnouncementArrives(w, maxSize, announcement, r, k, c);
    FirstStep(w, maxSize, announcement, later);
    StepKeeps(w, maxSize, announcement);
    var w1 := Step(w, maxSize, announcement);
    InvStreams(w, maxSize);
    StepGrows(w, maxSize, announcement, c);
    RunGrows(w1, maxSize, later, c);
    var client := end.s.streams.clients[c];
    KindStays(w1.s.streams.clients[c], client, k);
    ClientsTold(maxSize, actions, e.s.out, c);
    Included(Kinds(Own(client)), E.TerminalsOf(e.s.out, r));
    if |E.TerminalsOf(e.s.out, r)| == 1 { OnlyOne(Kinds(Own(client)), k); }
  }

  lemma FirstStep(w: World, maxSize: nat, a: Action, later: seq<Action>)
    requires Possible(w, maxSize, [a] + later)
    ensures Enabled(w.s, a) && Possible(Step(w, maxSize, a), maxSize, later)
    ensures After(w, maxSize, [a] + later) == After(Step(w, maxSize, a), maxSize, later)
  {
    assert ([a] + later)[1..] == later;
    hide Step, Enabled;
  }

  lemma OnlyOne(told: seq<Kind>, k: Kind)
    requires k in told && |told| <= 1
    ensures told == [k]
  {
  }

  lemma ClientsTold(maxSize: nat, actions: seq<Action>, es: seq<Emission>, c: StreamId)
    requires Possible(INITIAL, maxSize, actions) && Carries(actions, es)
    requires c in After(INITIAL, maxSize, actions).s.streams.clients
    ensures var client := After(INITIAL, maxSize, actions).s.streams.clients[c];
            multiset(Kinds(Own(client))) <= multiset(E.TerminalsOf(es, client.run))
  {
    InitInv(maxSize);
    assert Told(INITIAL, []);
    assert [] + es == es;
    hide Inv, After, Possible, Carries, E.TerminalsOf, Kinds, Own, LogsTold, TicketsOk;
    RunTold(INITIAL, maxSize, actions, [], es);
    assert ClientTold(After(INITIAL, maxSize, actions).s.streams.clients[c], es);
  }

  lemma Included(a: seq<Kind>, b: seq<Kind>)
    requires multiset(a) <= multiset(b)
    ensures |a| <= |b|
    ensures forall k :: k in a ==> k in b
  {
    assert |multiset(a)| == |a| && |multiset(b)| == |b|;
    assert multiset(b) == multiset(a) + (multiset(b) - multiset(a));
    forall k | k in a ensures k in b {
      assert k in multiset(a);
      assert k in multiset(b);
    }
  }
}

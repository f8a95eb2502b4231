/** Every step of the event stream service keeps its invariant. */
module SseSteps {
  import opened Collections
  import opened RunTypes
  import opened StableSort
  import opened SseSpec
  import opened SseReplay
  import opened SseHistory

  // Numbers.

  lemma NumberedPush(r: RunId, log: seq<Event>, current: nat, others: nat, e: Event)
    requires NumbersOk(r, log, current, others) && e.runId == r && e.seqNo == current + 1
    ensures NumbersOk(r, log + [e], current + 1, others)
  {
    forall i | 0 <= i < |log| ensures log[i].seqNo < e.seqNo {
      assert log[i] in log;
    }
  }

  lemma PushKeepsNumbers(s: Sse, h: History, r: RunId, ty: string, p: string)
    requires AllNumbersOk(s.counters, h)
    ensures AllNumbersOk(Tick(s, r).counters, Pushed(h, NextEvent(s, r, ty, p)))
  {
    var e := NextEvent(s, r, ty, p);
    var cs', h' := Tick(s, r).counters, Pushed(h, e);
    NumberedPush(r, Log(h, r), Current(s.counters, r), Others(h, r), e);
    forall x ensures NumbersOk(x, Log(h', x), Current(cs', x), Others(h', x)) {
      hide NumbersOk;
      assert NumbersOk(x, Log(h, x), Current(s.counters, x), Others(h, x));
    }
  }

  lemma TickKeepsNumbers(s: Sse, h: History, h': History, r: RunId)
    requires AllNumbersOk(s.counters, h) && h'.pushed == h.pushed
    requires forall x :: Others(h', x) == Others(h, x) + if x == r then 1 else 0
    ensures AllNumbersOk(Tick(s, r).counters, h')
  {
    forall x ensures NumbersOk(x, Log(h', x), Current(Tick(s, r).counters, x), Others(h', x)) {
      assert NumbersOk(x, Log(h, x), Current(s.counters, x), Others(h, x));
    }
  }

  lemma CloseKeepsNumbers(cs: Counters, h: History, r: RunId)
    requires AllNumbersOk(cs, h)
    ensures AllNumbersOk(cs - {r}, Closed(h, r))
  {
    forall x ensures NumbersOk(x, Log(Closed(h, r), x), Current(cs - {r}, x), Others(Closed(h, r), x)) {
      assert NumbersOk(x, Log(h, x), Current(cs, x), Others(h, x));
    }
  }

  // The buffer.

  lemma PushedBuffer(b: Buffers, maxSize: nat, e: Event, r: RunId)
    ensures BufferOf(Push(b, maxSize, e), r)
         == if r == e.runId then Evict(BufferOf(b, r) + [e], maxSize) else BufferOf(b, r)
  {
    hide Evict;
  }

  lemma PushedLog(h: History, e: Event, r: RunId)
    ensures Log(Pushed(h, e), r) == if r == e.runId then Log(h, r) + [e] else Log(h, r)
  {
  }

  lemma PushKeepsTails(b: Buffers, h: History, maxSize: nat, e: Event)
    requires BuffersKeepTails(b, h, maxSize)
    ensures BuffersKeepTails(Push(b, maxSize, e), Pushed(h, e), maxSize)
  {
    forall r ensures BufferOf(Push(b, maxSize, e), r) == LastN(Log(Pushed(h, e), r), maxSize) {
      assert BufferOf(b, r) == LastN(Log(h, r), maxSize);
      hide *;
      EvictIsLastN(Log(h, r), maxSize, e);
      PushedBuffer(b, maxSize, e, r);
      PushedLog(h, e, r);
    }
  }

  lemma PushKeepsOrder(b: Buffers, maxSize: nat, e: Event)
    requires OrderOk(b)
    ensures OrderOk(Push(b, maxSize, e))
  {
    var b' := Push(b, maxSize, e);
    forall r ensures r in b'.order <==> r in b'.events {
      assert r in b.order <==> r in b.events;
    }
  }

  lemma ClearKeepsOrder(b: Buffers, r: RunId)
    requires OrderOk(b)
    ensures OrderOk(Clear(b, r))
  {
    WithoutMembers(b.order, {r});
    WithoutDistinct(b.order, {r});
  }

  lemma ClearKeepsTails(b: Buffers, h: History, maxSize: nat, r: RunId)
    requires BuffersKeepTails(b, h, maxSize)
    ensures BuffersKeepTails(Clear(b, r), Closed(h, r), maxSize)
  {
    forall x ensures BufferOf(Clear(b, r), x) == LastN(Log(Closed(h, r), x), maxSize) {
      assert BufferOf(b, x) == LastN(Log(h, x), maxSize);
    }
  }

  // The registry.

  lemma AliveMembers(st: Streams, ids: seq<StreamId>)
    ensures forall c :: c in Alive(st, ids) <==> c in ids && c in st.clients && Reachable(st.clients[c])
    ensures Distinct(ids) ==> Distinct(Alive(st, ids))
  {
    var p := (c: StreamId) => c in st.clients && Reachable(st.clients[c]);
    FilterMembers(p, ids);
    FilterDistinct(p, ids);
  }

  lemma {:induction false} FilterDistinct<T(!new)>(p: T -> bool, s: seq<T>)
    ensures Distinct(s) ==> Distinct(Filter(p, s))
  {
    if s != [] && Distinct(s) {
      FilterDistinct(p, s[1..]);
      FilterMembers(p, s[1..]);
      var f := Filter(p, s[1..]);
      forall j | 0 <= j < |f| ensures s[0] != f[j] {
        assert f[j] in s[1..];
      }
    }
  }

  /** One set shrinks, at most one mapping goes, and clients change in ways the registry does not look at. */
  ghost predicate Shrunk(st: Streams, st': Streams, r: RunId, k: SetId, ids: seq<StreamId>) {
    && k in st.members && Distinct(ids) && (forall c :: c in ids ==> c in st.members[k])
    && st'.members == st.members[k := ids]
    && (st'.registry == st.registry || st'.registry == st.registry - {r})
    && SameShape(st, st')
  }

  lemma ShrinkKeepsStreams(st: Streams, st': Streams, r: RunId, k: SetId, ids: seq<StreamId>)
    requires StreamsOk(st) && Shrunk(st, st', r, k, ids)
    ensures StreamsOk(st')
  {
    ShrinkKeepsSets(st, st', r, k, ids);
    ShrinkKeepsMapped(st, st', r, k, ids);
    hide SetsOk, MappedOk;
  }

  lemma ShrinkKeepsSets(st: Streams, st': Streams, r: RunId, k: SetId, ids: seq<StreamId>)
    requires SetsOk(st) && Shrunk(st, st', r, k, ids)
    ensures SetsOk(st')
  {
  }

  lemma ShrinkKeepsMapped(st: Streams, st': Streams, r: RunId, k: SetId, ids: seq<StreamId>)
    requires MappedOk(st) && Shrunk(st, st', r, k, ids)
    ensures MappedOk(st')
  {
    forall x, c | x in st'.registry && c in MembersOf(st', st'.registry[x])
      ensures c in st'.clients && st'.clients[c].run == x
    {
      assert x in st.registry && c in MembersOf(st, st.registry[x]);
    }
  }

  /** The same clients, each in the run and set it was in. */
  ghost predicate SameShape(st: Streams, st': Streams) {
    && st'.clients.Keys == st.clients.Keys
    && (forall c :: c in st.clients ==>
          st'.clients[c].run == st.clients[c].run && st'.clients[c].joined == st.clients[c].joined)
  }

  lemma BroadcastKeepsStreams(st: Streams, r: RunId, e: Event)
    requires StreamsOk(st)
    ensures StreamsOk(Broadcast(st, r, e)) && SameShape(st, Broadcast(st, r, e))
  {
    if r in st.registry {
      var ids := Listeners(st, r);
      AliveMembers(st, ids);
      ShrinkKeepsStreams(st, Broadcast(st, r, e), r, st.registry[r], Alive(st, ids));
    }
  }

  lemma CleanupKeepsStreams(st: Streams, c: StreamId)
    requires StreamsOk(st) && c in st.clients
    ensures StreamsOk(Cleanup(st, c)) && SameShape(st, Cleanup(st, c))
  {
    var client := st.clients[c];
    var ids := MembersOf(st, client.joined);
    WithoutMembers(ids, {c});
    WithoutDistinct(ids, {c});
    ShrinkKeepsStreams(st, Cleanup(st, c), client.run, client.joined, Without(ids, {c}));
  }

  lemma CloseKeepsStreams(st: Streams, r: RunId)
    requires StreamsOk(st)
    ensures StreamsOk(CloseStreams(st, r)) && SameShape(st, CloseStreams(st, r))
  {
  }

  lemma ClientKeepsStreams(st: Streams, c: StreamId, client: Client)
    requires StreamsOk(st) && c in st.clients
    requires client.run == st.clients[c].run && client.joined == st.clients[c].joined
    ensures StreamsOk(WithClient(st, c, client))
  {
  }

  /** The registry after a registration, whatever has been written to the newcomer. */
  ghost predicate Grown(st: Streams, st': Streams, r: RunId, c: StreamId, k: SetId) {
    && st'.registry == st.registry[r := k]
    && st'.members == st.members[k := MembersOf(st, k) + [c]]
    && st'.clients.Keys == st.clients.Keys + {c}
    && st'.clients[c].run == r && st'.clients[c].joined == k && st'.clients[c].open
    && (forall x :: x in st.clients ==> st'.clients[x] == st.clients[x])
  }

  function TargetSet(st: Streams, r: RunId, newSet: SetId): SetId {
    if r in st.registry then st.registry[r] else newSet
  }

  lemma RegisterGrows(st: Streams, r: RunId, c: StreamId, newSet: SetId, es: seq<Event>)
    requires c !in st.clients
    ensures Grown(st, Write(Register(st, r, c, newSet), c, es), r, c, TargetSet(st, r, newSet))
  {
  }

  lemma GrownKeepsSets(st: Streams, st': Streams, r: RunId, c: StreamId, k: SetId)
    requires SetsOk(st) && c !in st.clients && Grown(st, st', r, c, k)
    ensures SetsOk(st')
  {
    assert c !in MembersOf(st, k);
  }

  lemma GrownKeepsMapped(st: Streams, st': Streams, r: RunId, c: StreamId, k: SetId)
    requires SetsOk(st) && MappedOk(st) && c !in st.clients && Grown(st, st', r, c, k)
    requires if r in st.registry then k == st.registry[r] else k !in st.members
    ensures MappedOk(st')
  {
    assert forall x :: x in st.registry && st.registry[x] == k ==> x == r;
    forall x, y | x in st'.registry && y in MembersOf(st', st'.registry[x])
      ensures y in st'.clients && st'.clients[y].run == x
    {
      if y != c {
        assert x in st.registry && y in MembersOf(st, st.registry[x]);
      }
    }
  }

  lemma RegisterKeepsStreams(st: Streams, r: RunId, c: StreamId, newSet: SetId, es: seq<Event>)
    requires StreamsOk(st) && c !in st.clients && newSet !in st.members
    ensures StreamsOk(Write(Register(st, r, c, newSet), c, es))
  {
    var st', k := Write(Register(st, r, c, newSet), c, es), TargetSet(st, r, newSet);
    RegisterGrows(st, r, c, newSet, es);
    GrownKeepsSets(st, st', r, c, k);
    GrownKeepsMapped(st, st', r, c, k);
    hide SetsOk, MappedOk, Register, Write;
  }

  // Who stays live.

  /** Any change that keeps everyone's run and set, removes mappings and members only, and reopens nobody. */
  ghost predicate Diminished(st: Streams, st': Streams) {
    && SameShape(st, st')
    && (forall r :: r in st'.registry ==> r in st.registry && st'.registry[r] == st.registry[r])
    && (forall k, c :: c in MembersOf(st', k) ==> c in MembersOf(st, k))
    && (forall c :: c in st.clients && st'.clients[c].open ==> st.clients[c].open)
  }

  lemma DiminishedLive(st: Streams, st': Streams, c: StreamId)
    requires Diminished(st, st')
    ensures Live(st', c) ==> Live(st, c)
    ensures Registered(st', c) ==> Registered(st, c)
  {
  }

  lemma BroadcastDiminishes(st: Streams, r: RunId, e: Event)
    ensures Diminished(st, Broadcast(st, r, e))
  {
    if r in st.registry {
      AliveMembers(st, Listeners(st, r));
    }
  }

  lemma CleanupDiminishes(st: Streams, c: StreamId)
    requires c in st.clients
    ensures Diminished(st, Cleanup(st, c))
    ensures forall x :: x in st.clients ==> Cleanup(st, c).clients[x].written == st.clients[x].written
  {
    WithoutMembers(MembersOf(st, st.clients[c].joined), {c});
  }

  lemma CloseDiminishes(st: Streams, r: RunId)
    ensures Diminished(st, CloseStreams(st, r))
    ensures forall x :: x in st.clients ==> CloseStreams(st, r).clients[x].written == st.clients[x].written
  {
  }

  lemma ClientDiminishes(st: Streams, c: StreamId, client: Client)
    requires c in st.clients
    requires client.run == st.clients[c].run && client.joined == st.clients[c].joined
    requires client.open ==> st.clients[c].open
    requires client.written == st.clients[c].written
    ensures Diminished(st, WithClient(st, c, client))
    ensures forall x :: x in st.clients ==> WithClient(st, c, client).clients[x].written == st.clients[x].written
  {
  }

  // Transcripts.

  lemma TranscriptStays(client: Client, client': Client, ticket: Ticket, live: bool, live': bool,
                        log: seq<Event>, current: nat, log': seq<Event>, current': nat)
    requires TranscriptOk(client, ticket, live, log, current)
    requires client'.run == client.run && client'.written == client.written
    requires live' ==> live && log' == log && current' >= current
    ensures TranscriptOk(client', ticket, live', log', current')
  {
    hide Increasing, Filter;
  }

  lemma TranscriptGrows(client: Client, client': Client, ticket: Ticket, live': bool, log: seq<Event>, current: nat,
                        e: Event)
    requires TranscriptOk(client, ticket, true, log, current) && e.runId == client.run && e.seqNo == current + 1
    requires client' == client.(written := client.written + [e])
    ensures TranscriptOk(client', ticket, live', log + [e], current + 1)
  {
    FilterAppend(IsOf(client.run), client.written, [e]);
    FilterAll(IsOf(client.run), [e]);
    var own := Own(client);
    assert Own(client') == own + [e];
    forall i | 0 <= i < |own| ensures own[i].seqNo < e.seqNo {
      assert own[i] in own;
    }
  }

  /** Who gets a broadcast and what happens to everybody else. */
  lemma BroadcastReaches(st: Streams, r: RunId, e: Event, c: StreamId)
    requires StreamsOk(st) && c in st.clients
    ensures var st' := Broadcast(st, r, e);
            if Live(st, c) && st.clients[c].run == r && !st.clients[c].failing then
              st'.clients[c] == st.clients[c].(written := st.clients[c].written + [e]) && Live(st', c)
            else
              && st'.clients[c].(open := true) == st.clients[c].(open := true)
              && (Live(st', c) ==> Live(st, c) && st.clients[c].run != r)
  {
    BroadcastDiminishes(st, r, e);
    DiminishedLive(st, Broadcast(st, r, e), c);
    if r in st.registry {
      AliveMembers(st, Listeners(st, r));
    }
  }

  lemma PublishKeepsClient(s: Sse, h: History, r: RunId, ty: string, p: string, c: StreamId)
    requires StreamsOk(s.streams) && c in s.streams.clients && ClientOk(s.streams, s.counters, h, c)
    ensures var e := NextEvent(s, r, ty, p); var st' := Broadcast(s.streams, r, e);
            c in st'.clients && ClientOk(st', Tick(s, r).counters, Pushed(h, e), c)
  {
    var e := NextEvent(s, r, ty, p);
    var st, st', cs, cs', h' := s.streams, Broadcast(s.streams, r, e), s.counters, Tick(s, r).counters, Pushed(h, e);
    var x := st.clients[c].run;
    BroadcastDiminishes(st, r, e);
    BroadcastReaches(st, r, e, c);
    hide Broadcast, StreamsOk, TranscriptOk, Live;
    if Live(st, c) && x == r && !st.clients[c].failing {
      TranscriptGrows(st.clients[c], st'.clients[c], h.tickets[c], Live(st', c), Log(h, r), Current(cs, r), e);
    } else {
      TranscriptStays(st.clients[c], st'.clients[c], h.tickets[c], Live(st, c), Live(st', c),
                      Log(h, x), Current(cs, x), Log(h', x), Current(cs', x));
    }
  }

  lemma PublishKeepsTranscripts(s: Sse, h: History, r: RunId, ty: string, p: string)
    requires StreamsOk(s.streams) && TranscriptsOk(s.streams, s.counters, h)
    ensures var e := NextEvent(s, r, ty, p);
            TranscriptsOk(Broadcast(s.streams, r, e), Tick(s, r).counters, Pushed(h, e))
  {
    var e := NextEvent(s, r, ty, p);
    BroadcastDiminishes(s.streams, r, e);
    var st' := Broadcast(s.streams, r, e);
    forall c | c in st'.clients
      ensures ClientOk(st', Tick(s, r).counters, Pushed(h, e), c)
    {
      hide Broadcast, StreamsOk, ClientOk;
      PublishKeepsClient(s, h, r, ty, p, c);
    }
  }

  /** Steps that write to nobody: a dropped event, a close, a cleanup, a failure, a hang-up. */
  lemma QuietKeepsTranscripts(st: Streams, cs: Counters, h: History, st': Streams, cs': Counters, h': History)
    requires TranscriptsOk(st, cs, h) && Diminished(st, st') && h'.tickets == h.tickets
    requires forall c :: c in st.clients ==> st'.clients[c].written == st.clients[c].written
    requires forall c :: Live(st', c) ==>
               && Log(h', st.clients[c].run) == Log(h, st.clients[c].run)
               && Current(cs', st.clients[c].run) >= Current(cs, st.clients[c].run)
    ensures TranscriptsOk(st', cs', h')
  {
    forall c | c in st'.clients
      ensures ClientOk(st', cs', h', c)
    {
      DiminishedLive(st, st', c);
      var x := st.clients[c].run;
      assert TranscriptOk(st.clients[c], h.tickets[c], Live(st, c), Log(h, x), Current(cs, x));
      hide TranscriptOk, Live, Log, Current;
      TranscriptStays(st.clients[c], st'.clients[c], h.tickets[c], Live(st, c), Live(st', c),
                      Log(h, x), Current(cs, x), Log(h', x), Current(cs', x));
    }
  }

  lemma CloseSilences(st: Streams, r: RunId, c: StreamId)
    requires Live(CloseStreams(st, r), c)
    ensures st.clients[c].run != r
  {
  }

  lemma CloseKeepsTranscripts(st: Streams, cs: Counters, h: History, r: RunId)
    requires TranscriptsOk(st, cs, h)
    ensures TranscriptsOk(CloseStreams(st, r), cs - {r}, Closed(h, r))
  {
    CloseDiminishes(st, r);
    forall c | Live(CloseStreams(st, r), c)
      ensures st.clients[c].run != r
    {
      CloseSilences(st, r, c);
    }
    hide TranscriptsOk, Diminished, Live;
    QuietKeepsTranscripts(st, cs, h, CloseStreams(st, r), cs - {r}, Closed(h, r));
  }

  /** Of its own run, a newcomer is sent the buffered tail it asked for and the connection envelope. */
  lemma OwnGreeting(s: Sse, h: History, r: RunId, n: Option<int>, p: string)
    requires OrderOk(s.buffers) && Increasing(BufferOf(s.buffers, r))
    requires UpTo(BufferOf(s.buffers, r), Current(s.counters, r))
    ensures var own := Filter(IsOf(r), Greeting(s, r, n, p));
            && own == (if n.Some? then Filter(AtLeast(n.value), BufferOf(s.buffers, r)) else [])
                      + [NextEvent(s, r, STREAM_CONNECTED, p)]
            && Increasing(own)
            && UpTo(own, Current(s.counters, r) + 1)
  {
    var hello := NextEvent(s, r, STREAM_CONNECTED, p);
    var replay := if n.Some? then GetFrom(s.buffers, n.value) else [];
    var tail := if n.Some? then Filter(AtLeast(n.value), BufferOf(s.buffers, r)) else [];
    if n.Some? {
      ReplaySpec(s.buffers, n.value, r);
      FilterIncreasing(AtLeast(n.value), BufferOf(s.buffers, r));
      FilterMembers(AtLeast(n.value), BufferOf(s.buffers, r));
    }
    FilterAppend(IsOf(r), replay, [hello]);
    FilterAll(IsOf(r), [hello]);
    forall i | 0 <= i < |tail| ensures tail[i].seqNo < hello.seqNo {
      assert tail[i] in tail;
    }
  }

  lemma BufferNumbers(b: Buffers, cs: Counters, h: History, maxSize: nat, r: RunId)
    requires AllNumbersOk(cs, h) && BuffersKeepTails(b, h, maxSize)
    ensures Increasing(BufferOf(b, r)) && UpTo(BufferOf(b, r), Current(cs, r))
  {
    assert NumbersOk(r, Log(h, r), Current(cs, r), Others(h, r));
    assert BufferOf(b, r) == LastN(Log(h, r), maxSize);
  }

  lemma GrownLive(st: Streams, st': Streams, r: RunId, c: StreamId, newSet: SetId, x: StreamId)
    requires CapturedOk(st) && c !in st.clients && newSet !in st.members
    requires Grown(st, st', r, c, TargetSet(st, r, newSet)) && x != c
    ensures Live(st', x) <==> Live(st, x)
  {
  }

  lemma NewcomerTranscript(s: Sse, h: History, r: RunId, n: Option<int>, p: string, client: Client)
    requires OrderOk(s.buffers) && Increasing(BufferOf(s.buffers, r))
    requires UpTo(BufferOf(s.buffers, r), Current(s.counters, r))
    requires client.run == r && client.written == Greeting(s, r, n, p)
    ensures TranscriptOk(client, Ticket(Greeting(s, r, n, p), Log(h, r)), true, Log(h, r), Current(s.counters, r) + 1)
  {
    OwnGreeting(s, h, r, n, p);
    hide Greeting, Increasing, UpTo, Filter, Log, Current;
  }

  lemma NewcomerOk(s: Sse, h: History, maxSize: nat, r: RunId, c: StreamId, k: SetId, n: Option<int>, p: string)
    requires OrderOk(s.buffers) && AllNumbersOk(s.counters, h) && BuffersKeepTails(s.buffers, h, maxSize)
    ensures var s' := Connect(s, r, c, k, n, p);
            c in s'.streams.clients && ClientOk(s'.streams, s'.counters, Joined(h, s, r, c, n, p), c)
  {
    var s', h' := Connect(s, r, c, k, n, p), Joined(h, s, r, c, n, p);
    NewcomerWritten(s, r, c, k, n, p);
    BufferNumbers(s.buffers, s.counters, h, maxSize, r);
    assert Log(h', r) == Log(h, r);
    hide AllNumbersOk, BuffersKeepTails, OrderOk, Increasing, Live, Greeting, Register, Write, GetFrom;
    var client := s'.streams.clients[c];
    NewcomerTranscript(s, h, r, n, p, client);
    TranscriptStays(client, client, h'.tickets[c], true, Live(s'.streams, c),
                    Log(h, r), Current(s.counters, r) + 1, Log(h', r), Current(s'.counters, r));
  }

  lemma OldClientOk(s: Sse, h: History, r: RunId, c: StreamId, k: SetId, n: Option<int>, p: string, x: StreamId)
    requires CapturedOk(s.streams) && TranscriptsOk(s.streams, s.counters, h)
    requires c !in s.streams.clients && k !in s.streams.members && x in s.streams.clients
    ensures var s' := Connect(s, r, c, k, n, p);
            x in s'.streams.clients && ClientOk(s'.streams, s'.counters, Joined(h, s, r, c, n, p), x)
  {
    var st, cs, s', h' := s.streams, s.counters, Connect(s, r, c, k, n, p), Joined(h, s, r, c, n, p);
    var st', cs' := s'.streams, s'.counters;
    assert st' == Write(Register(st, r, c, k), c, Greeting(s, r, n, p));
    RegisterGrows(st, r, c, k, Greeting(s, r, n, p));
    GrownLive(st, st', r, c, k, x);
    var y := st.clients[x].run;
    assert TranscriptOk(st.clients[x], h.tickets[x], Live(st, x), Log(h, y), Current(cs, y));
    hide CapturedOk, Live, Greeting, Register, Write, GetFrom;
    TranscriptStays(st.clients[x], st'.clients[x], h.tickets[x], Live(st, x), Live(st', x),
                    Log(h, y), Current(cs, y), Log(h', y), Current(cs', y));
  }

  lemma ConnectKeepsTranscripts(s: Sse, h: History, maxSize: nat, r: RunId, c: StreamId, k: SetId, n: Option<int>,
                                p: string)
    requires OrderOk(s.buffers) && AllNumbersOk(s.counters, h) && BuffersKeepTails(s.buffers, h, maxSize)
    requires CapturedOk(s.streams) && TranscriptsOk(s.streams, s.counters, h)
    requires c !in s.streams.clients && k !in s.streams.members
    ensures var s' := Connect(s, r, c, k, n, p);
            TranscriptsOk(s'.streams, s'.counters, Joined(h, s, r, c, n, p))
  {
    var s', h' := Connect(s, r, c, k, n, p), Joined(h, s, r, c, n, p);
    NewcomerOk(s, h, maxSize, r, c, k, n, p);
    forall x | x in s'.streams.clients
      ensures ClientOk(s'.streams, s'.counters, h', x)
    {
      if x != c {
        assert x in s.streams.clients;
        hide OrderOk, AllNumbersOk, BuffersKeepTails, Connect, Joined, ClientOk;
        OldClientOk(s, h, r, c, k, n, p, x);
      }
    }
    hide TranscriptOk, Live, Connect, Joined;
  }

  lemma NewcomerWritten(s: Sse, r: RunId, c: StreamId, k: SetId, n: Option<int>, p: string)
    ensures var st' := Connect(s, r, c, k, n, p).streams;
            && c in st'.clients
            && st'.clients[c] == Client(true, false, Greeting(s, r, n, p), r, TargetSet(s.streams, r, k))
  {
    hide GetFrom, NextEvent;
  }

  // The whole step.

  lemma InitInv(maxSize: nat)
    ensures Inv(INITIAL, maxSize)
  {
  }

  lemma PublishKeeps(w: World, maxSize: nat, r: RunId, ty: string, p: string)
    requires Inv(w, maxSize)
    ensures Inv(World(OrchestratorEvent(w.s, maxSize, r, ty, p), Pushed(w.h, NextEvent(w.s, r, ty, p))), maxSize)
  {
    hide OrderOk, AllNumbersOk, BuffersKeepTails, StreamsOk, TranscriptsOk, Push, Broadcast, Pushed, SameShape;
    var e := NextEvent(w.s, r, ty, p);
    PushKeepsOrder(w.s.buffers, maxSize, e);
    PushKeepsNumbers(w.s, w.h, r, ty, p);
    PushKeepsTails(w.s.buffers, w.h, maxSize, e);
    BroadcastKeepsStreams(w.s.streams, r, e);
    PublishKeepsTranscripts(w.s, w.h, r, ty, p);
  }

  lemma SkipKeeps(w: World, maxSize: nat, r: RunId)
    requires Inv(w, maxSize)
    ensures Inv(World(Tick(w.s, r), Skipped(w.h, r)), maxSize)
  {
    TickKeepsNumbers(w.s, w.h, Skipped(w.h, r), r);
    assert forall x :: Log(Skipped(w.h, r), x) == Log(w.h, x);
    hide OrderOk, AllNumbersOk, StreamsOk, TranscriptsOk, LastN, Live;
    QuietKeepsTranscripts(w.s.streams, w.s.counters, w.h, w.s.streams, Tick(w.s, r).counters, Skipped(w.h, r));
  }

  lemma CloseKeeps(w: World, maxSize: nat, r: RunId)
    requires Inv(w, maxSize)
    ensures Inv(World(CloseRun(w.s, r), Closed(w.h, r)), maxSize)
  {
    hide OrderOk, AllNumbersOk, BuffersKeepTails, StreamsOk, TranscriptsOk, Clear, CloseStreams, Closed, SameShape;
    ClearKeepsOrder(w.s.buffers, r);
    CloseKeepsNumbers(w.s.counters, w.h, r);
    ClearKeepsTails(w.s.buffers, w.h, maxSize, r);
    CloseKeepsStreams(w.s.streams, r);
    CloseKeepsTranscripts(w.s.streams, w.s.counters, w.h, r);
  }

  lemma ConnectKeeps(w: World, maxSize: nat, r: RunId, c: StreamId, k: SetId, n: Option<int>, p: string)
    requires Inv(w, maxSize) && c !in w.s.streams.clients && k !in w.s.streams.members
    ensures Inv(World(Connect(w.s, r, c, k, n, p), Joined(w.h, w.s, r, c, n, p)), maxSize)
  {
    var h' := Joined(w.h, w.s, r, c, n, p);
    TickKeepsNumbers(w.s, w.h, h', r);
    assert forall x :: Log(h', x) == Log(w.h, x);
    hide OrderOk, AllNumbersOk, StreamsOk, TranscriptsOk, LastN, Register, Write, GetFrom;
    RegisterKeepsStreams(w.s.streams, r, c, k, Greeting(w.s, r, n, p));
    StreamsCaptured(w.s.streams);
    ConnectKeepsTranscripts(w.s, w.h, maxSize, r, c, k, n, p);
  }

  lemma StreamsCaptured(st: Streams)
    requires StreamsOk(st)
    ensures CapturedOk(st)
  {
  }

  lemma LeaveKeeps(w: World, maxSize: nat, c: StreamId)
    requires Inv(w, maxSize) && c in w.s.streams.clients
    ensures Inv(w.(s := w.s.(streams := Cleanup(w.s.streams, c))), maxSize)
  {
    hide OrderOk, AllNumbersOk, BuffersKeepTails, StreamsOk, TranscriptsOk, SameShape, Cleanup, Live;
    var st, st' := w.s.streams, Cleanup(w.s.streams, c);
    CleanupKeepsStreams(st, c);
    CleanupDiminishes(st, c);
    hide Diminished;
    QuietKeepsTranscripts(st, w.s.counters, w.h, st', w.s.counters, w.h);
  }

  lemma ClientKeeps(w: World, maxSize: nat, c: StreamId, client: Client)
    requires Inv(w, maxSize) && c in w.s.streams.clients
    requires client.(failing := true, open := false) == w.s.streams.clients[c].(failing := true, open := false)
    requires client.open ==> w.s.streams.clients[c].open
    ensures Inv(w.(s := w.s.(streams := WithClient(w.s.streams, c, client))), maxSize)
  {
    hide OrderOk, AllNumbersOk, BuffersKeepTails, StreamsOk, TranscriptsOk, Live, SameShape, WithClient;
    var st, st' := w.s.streams, WithClient(w.s.streams, c, client);
    ClientKeepsStreams(st, c, client);
    ClientDiminishes(st, c, client);
    hide Diminished;
    QuietKeepsTranscripts(st, w.s.counters, w.h, st', w.s.counters, w.h);
  }

  lemma StepKeeps(w: World, maxSize: nat, a: Action)
    requires Inv(w, maxSize) && Enabled(w.s, a)
    ensures Inv(Step(w, maxSize, a), maxSize)
  {
    hide Inv, OrchestratorEvent, Tick, CloseRun, Connect, Cleanup, WithClient, Pushed, Skipped, Closed, Joined;
    match a
    case Emit(r, ty, p) => PublishKeeps(w, maxSize, r, ty, p);
    case Agent(r, ty, p) =>
      if ty in AGENT_EVENT_TYPES { PublishKeeps(w, maxSize, r, ty, p); } else { SkipKeeps(w, maxSize, r); }
    case Close(r) => CloseKeeps(w, maxSize, r);
    case Join(r, c, k, n, p) => ConnectKeeps(w, maxSize, r, c, k, n, p);
    case Leave(c) => LeaveKeeps(w, maxSize, c);
    case Break(c) => ClientKeeps(w, maxSize, c, w.s.streams.clients[c].(failing := true));
    case Hangup(c) => ClientKeeps(w, maxSize, c, w.s.streams.clients[c].(open := false));
  }

  lemma {:induction false} RunKeeps(w: World, maxSize: nat, actions: seq<Action>)
    requires Inv(w, maxSize) && Possible(w, maxSize, actions)
    ensures Inv(After(w, maxSize, actions), maxSize)
    decreases |actions|
  {
    hide Inv, Step;
    if actions != [] {
      StepKeeps(w, maxSize, actions[0]);
      RunKeeps(Step(w, maxSize, actions[0]), maxSize, actions[1..]);
    }
  }
}

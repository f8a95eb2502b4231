/** The sequencer, the replay buffer and the stream registry as the service runs them: objects updated in
    place, each method proved to do what SseSpec says. */
module SseStreams {
  import opened Collections
  import opened RunTypes
  import opened StableSort
  import S = SseSpec
  import H = SseHistory
  import SseSteps

  class MemoryEventSequencer {
    var counters: S.Counters

    constructor ()
      ensures counters == map[]
    {
      counters := map[];
    }

    method Next(runId: RunId) returns (next: nat)
      modifies this
      ensures counters == old(counters)[runId := next]
      ensures next == S.Current(old(counters), runId) + 1
    {
      next := (if runId in counters then counters[runId] else 0) + 1;
      counters := counters[runId := next];
    }

    method Cleanup(runId: RunId)
      modifies this
      ensures counters == old(counters) - {runId}
    {
      counters := counters - {runId};
    }
  }

  class BoundedEventBuffer {
    const maxSize: nat
    var order: seq<RunId>
    var buffers: map<RunId, seq<S.Event>>

    ghost function State(): S.Buffers
      reads this
    {
      S.Buffers(order, buffers)
    }

    constructor (maxSize: nat)
      ensures State() == S.NO_BUFFERS && this.maxSize == maxSize
    {
      this.maxSize := maxSize;
      order, buffers := [], map[];
    }

    method Push(event: S.Event)
      modifies this
      ensures State() == S.Push(old(State()), maxSize, event)
    {
      if event.runId !in buffers {
        order := order + [event.runId];
        buffers := buffers[event.runId := []];
      }
      buffers := buffers[event.runId := buffers[event.runId] + [event]];
      if |buffers[event.runId]| > maxSize {
        buffers := buffers[event.runId := buffers[event.runId][1..]];
      }
    }

    method GetFrom(startSeq: int) returns (events: seq<S.Event>)
      ensures events == S.GetFrom(State(), startSeq)
    {
      var result: seq<S.Event> := [];
      var i := 0;
      while i < |order|
        invariant i <= |order|
        invariant result == Filter(S.AtLeast(startSeq), S.AllEvents(order[..i], buffers))
      {
        var buffer := if order[i] in buffers then buffers[order[i]] else [];
        ghost var before := result;
        var j := 0;
        while j < |buffer|
          invariant j <= |buffer|
          invariant result == before + Filter(S.AtLeast(startSeq), buffer[..j])
        {
          if buffer[j].seqNo >= startSeq {
            result := result + [buffer[j]];
          }
          assert buffer[..j + 1] == buffer[..j] + [buffer[j]];
          FilterAppend(S.AtLeast(startSeq), buffer[..j], [buffer[j]]);
          j := j + 1;
        }
        assert buffer[..j] == buffer;
        assert order[..i + 1] == order[..i] + [order[i]];
        AllEventsAppend(order[..i], [order[i]], buffers);
        assert S.AllEvents([order[i]], buffers) == buffer;
        FilterAppend(S.AtLeast(startSeq), S.AllEvents(order[..i], buffers), buffer);
        i := i + 1;
      }
      assert order[..i] == order;
      events := Sort(S.BY_SEQ, result);
    }

    method GetTotalSize() returns (total: nat)
      ensures total == |S.AllEvents(order, buffers)|
    {
      total := 0;
      var i := 0;
      while i < |order|
        invariant i <= |order|
        invariant total == |S.AllEvents(order[..i], buffers)|
      {
        assert order[..i + 1] == order[..i] + [order[i]];
        AllEventsAppend(order[..i], [order[i]], buffers);
        total := total + if order[i] in buffers then |buffers[order[i]]| else 0;
        i := i + 1;
      }
      assert order[..i] == order;
    }

    method Clear(runId: RunId)
      modifies this
      ensures State() == S.Clear(old(State()), runId)
    {
      order := Without(order, {runId});
      buffers := buffers - {runId};
    }
  }

  lemma {:induction false} AllEventsAppend(a: seq<RunId>, b: seq<RunId>, events: map<RunId, seq<S.Event>>)
    ensures S.AllEvents(a + b, events) == S.AllEvents(a, events) + S.AllEvents(b, events)
  {
    if a == [] {
      assert a + b == b;
    } else {
      assert (a + b)[1..] == a[1..] + b;
      AllEventsAppend(a[1..], b, events);
    }
  }

  lemma {:induction false} WithoutIsFilter<T>(s: seq<T>, gone: set<T>)
    ensures Without(s, gone) == Filter(x => x !in gone, s)
  {
    if s != [] {
      WithoutIsFilter(s[1..], gone);
    }
  }

  /** Removing the ones found dead leaves the ones alive. */
  lemma DeadGone(st: S.Streams, ids: seq<S.StreamId>, dead: set<S.StreamId>)
    requires forall c :: c in dead <==> c in ids && !(c in st.clients && S.Reachable(st.clients[c]))
    ensures Without(ids, dead) == S.Alive(st, ids)
  {
    WithoutIsFilter(ids, dead);
    FilterAgree(x => x !in dead, (c: S.StreamId) => c in st.clients && S.Reachable(st.clients[c]), ids);
  }

  ghost function Elements<T>(s: seq<T>): set<T> { set x | x in s }

  class MemorySSEStreamController {
    var streams: map<RunId, S.SetId>
    var sets: map<S.SetId, seq<S.StreamId>>
    var clients: map<S.StreamId, S.Client>

    ghost function State(): S.Streams
      reads this
    {
      S.Streams(streams, sets, clients)
    }

    ghost predicate Valid()
      reads this
    {
      H.StreamsOk(State())
    }

    constructor ()
      ensures State() == S.NO_STREAMS
      ensures Valid()
    {
      streams, sets, clients := map[], map[], map[];
    }

    method Register(runId: RunId, stream: S.StreamId, newSet: S.SetId)
      requires Valid() && stream !in clients && newSet !in sets
      modifies this
      ensures State() == S.Register(old(State()), runId, stream, newSet)
      ensures Valid()
    {
      hide H.StreamsOk;
      RegisterValid(State(), runId, stream, newSet);
      if runId !in streams {
        streams := streams[runId := newSet];
        sets := sets[newSet := []];
      }
      var runStreams := streams[runId];
      sets := sets[runStreams := (if runStreams in sets then sets[runStreams] else []) + [stream]];
      clients := clients[stream := S.Client(true, false, [], runId, runStreams)];
    }

    /** Writing to one stream. */
    method Write(stream: S.StreamId, event: S.Event)
      requires Valid() && stream in clients
      modifies this
      ensures State() == S.Write(old(State()), stream, [event])
      ensures Valid()
    {
      SseSteps.ClientKeepsStreams(State(), stream, clients[stream].(written := clients[stream].written + [event]));
      hide H.StreamsOk;
      clients := clients[stream := clients[stream].(written := clients[stream].written + [event])];
    }

    method Broadcast(runId: RunId, event: S.Event)
      requires Valid()
      modifies this
      ensures State() == S.Broadcast(old(State()), runId, event)
      ensures Valid()
    {
      hide H.StreamsOk, SseSteps.SameShape;
      SseSteps.BroadcastKeepsStreams(State(), runId, event);
      if runId !in streams {
        return;
      }
      var runStreams := streams[runId];
      MappedSet(State(), runId);
      ghost var before := State();
      var deadStreams := WriteOrCollect(runStreams, event);
      TwoLoops(before, runId, event, deadStreams);
      hide S.Broadcast, Written, S.CloseAll, Elements;
      DropDead(runStreams, deadStreams);
      if sets[runStreams] == [] {
        streams := streams - {runId};
      }
    }

    /** The first loop: write to the reachable streams of a set, and collect the others. */
    method WriteOrCollect(runStreams: S.SetId, event: S.Event) returns (deadStreams: seq<S.StreamId>)
      requires runStreams in sets && Distinct(sets[runStreams])
      requires forall c :: c in sets[runStreams] ==> c in clients
      modifies this`clients
      ensures clients == Written(old(clients), sets[runStreams], event)
      ensures forall c :: c in deadStreams <==> c in sets[runStreams] && !S.Reachable(old(clients)[c])
    {
      var members := sets[runStreams];
      deadStreams := [];
      var i := 0;
      assert clients == Written(clients, [], event);
      while i < |members|
        invariant i <= |members|
        invariant clients == Written(old(clients), members[..i], event)
        invariant forall c :: c in deadStreams <==> c in members[..i] && !S.Reachable(old(clients)[c])
      {
        var stream := members[i];
        assert members[..i + 1] == members[..i] + [stream];
        WrittenMore(old(clients), members[..i], stream, event);
        hide Written;
        if clients[stream].open && !clients[stream].failing {
          clients := clients[stream := clients[stream].(written := clients[stream].written + [event])];
        } else {
          deadStreams := deadStreams + [stream];
        }
        i := i + 1;
      }
      assert members[..i] == members;
    }

    /** The second loop: take the dead streams out of the set and close them. */
    method DropDead(runStreams: S.SetId, deadStreams: seq<S.StreamId>)
      requires runStreams in sets
      requires forall c :: c in deadStreams ==> c in clients
      modifies this`sets, this`clients
      ensures sets == old(sets)[runStreams := Without(old(sets)[runStreams], Elements(deadStreams))]
      ensures clients == S.CloseAll(old(clients), deadStreams)
    {
      var i := 0;
      assert Elements(deadStreams[..i]) == {};
      assert clients == S.CloseAll(clients, []);
      WithoutAbsent(sets[runStreams], {});
      while i < |deadStreams|
        invariant i <= |deadStreams|
        invariant runStreams in sets
        invariant sets == old(sets)[runStreams := Without(old(sets)[runStreams], Elements(deadStreams[..i]))]
        invariant clients == S.CloseAll(old(clients), deadStreams[..i])
      {
        var dead := deadStreams[i];
        assert deadStreams[..i + 1] == deadStreams[..i] + [dead];
        assert Elements(deadStreams[..i + 1]) == Elements(deadStreams[..i]) + {dead};
        WithoutTwice(old(sets)[runStreams], Elements(deadStreams[..i]), {dead});
        CloseOneMore(old(clients), deadStreams[..i], dead);
        hide S.CloseAll;
        sets := sets[runStreams := Without(sets[runStreams], {dead})];
        clients := clients[dead := clients[dead].(open := false)];
        i := i + 1;
      }
      assert deadStreams[..i] == deadStreams;
    }

    method CloseRun(runId: RunId)
      requires Valid()
      modifies this
      ensures State() == S.CloseStreams(old(State()), runId)
      ensures Valid()
    {
      hide H.StreamsOk, SseSteps.SameShape;
      SseSteps.CloseKeepsStreams(State(), runId);
      if runId !in streams {
        return;
      }
      MappedSet(State(), runId);
      var runStreams := sets[streams[runId]];
      var i := 0;
      assert clients == S.CloseAll(clients, []);
      while i < |runStreams|
        invariant i <= |runStreams|
        invariant streams == old(streams) && sets == old(sets)
        invariant clients == S.CloseAll(old(clients), runStreams[..i])
      {
        var stream := runStreams[i];
        assert runStreams[..i + 1] == runStreams[..i] + [stream];
        CloseOneMore(old(clients), runStreams[..i], stream);
        hide S.CloseAll;
        clients := clients[stream := clients[stream].(open := false)];
        i := i + 1;
      }
      assert runStreams[..i] == runStreams;
      hide S.CloseAll;
      streams := streams - {runId};
    }

    /** The cleanup function that Register returned for a stream. */
    method Cleanup(stream: S.StreamId)
      requires Valid() && stream in clients
      modifies this
      ensures State() == S.Cleanup(old(State()), stream)
      ensures Valid()
    {
      hide H.StreamsOk, SseSteps.SameShape;
      SseSteps.CleanupKeepsStreams(State(), stream);
      SseSteps.StreamsCaptured(State());
      var runId, runStreams := clients[stream].run, clients[stream].joined;
      sets := sets[runStreams := Without(sets[runStreams], {stream})];
      if sets[runStreams] == [] {
        streams := streams - {runId};
      }
      if clients[stream].open {
        clients := clients[stream := clients[stream].(open := false)];
      }
    }
  }

  ghost function Written(clients: map<S.StreamId, S.Client>, ids: seq<S.StreamId>, e: S.Event)
    : map<S.StreamId, S.Client>
  {
    map c | c in clients ::
      if c in ids && S.Reachable(clients[c]) then clients[c].(written := clients[c].written + [e]) else clients[c]
  }

  lemma WrittenMore(clients: map<S.StreamId, S.Client>, ids: seq<S.StreamId>, c: S.StreamId, e: S.Event)
    requires c in clients && c !in ids
    ensures c in Written(clients, ids, e) && Written(clients, ids, e)[c] == clients[c]
    ensures Written(clients, ids + [c], e)
         == if S.Reachable(clients[c])
            then Written(clients, ids, e)[c := clients[c].(written := clients[c].written + [e])]
            else Written(clients, ids, e)
  {
  }

  lemma CloseOneMore(clients: map<S.StreamId, S.Client>, ids: seq<S.StreamId>, c: S.StreamId)
    requires c in clients
    ensures c in S.CloseAll(clients, ids)
    ensures S.CloseAll(clients, ids + [c]) == S.CloseAll(clients, ids)[c := S.CloseAll(clients, ids)[c].(open := false)]
  {
  }

  /** What the two loops and the last test of a broadcast add up to. */
  lemma TwoLoops(st: S.Streams, r: RunId, e: S.Event, dead: seq<S.StreamId>)
    requires r in st.registry && st.registry[r] in st.members
    requires forall c :: c in st.members[st.registry[r]] ==> c in st.clients
    requires forall c :: c in dead <==> c in st.members[st.registry[r]] && !S.Reachable(st.clients[c])
    ensures var k := st.registry[r];
            var left := Without(st.members[k], Elements(dead));
            S.Broadcast(st, r, e) == S.Streams(if left == [] then st.registry - {r} else st.registry,
                                               st.members[k := left],
                                               S.CloseAll(Written(st.clients, st.members[k], e), dead))
  {
    DeadGone(st, st.members[st.registry[r]], Elements(dead));
    var ids := st.members[st.registry[r]];
    assert S.DeliverAll(st, S.Listeners(st, r), e) == S.CloseAll(Written(st.clients, ids, e), dead);
  }

  lemma RegisterValid(st: S.Streams, r: RunId, c: S.StreamId, newSet: S.SetId)
    requires H.StreamsOk(st) && c !in st.clients && newSet !in st.members
    ensures H.StreamsOk(S.Register(st, r, c, newSet))
  {
    SseSteps.RegisterKeepsStreams(st, r, c, newSet, []);
    hide H.StreamsOk;
    assert S.Write(S.Register(st, r, c, newSet), c, []) == S.Register(st, r, c, newSet);
  }

  lemma MappedSet(st: S.Streams, r: RunId)
    requires H.StreamsOk(st) && r in st.registry
    ensures st.registry[r] in st.members && Distinct(st.members[st.registry[r]])
    ensures forall c :: c in st.members[st.registry[r]] ==> c in st.clients
  {
  }
}

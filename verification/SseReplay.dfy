/** What a replay returns: facts about the buffer, the sort and logs of strictly increasing numbers. */
module SseReplay {
  import opened Collections
  import opened RunTypes
  import opened StableSort
  import opened SseSpec

  ghost predicate Increasing(s: seq<Event>) {
    forall i, j :: 0 <= i < j < |s| ==> s[i].seqNo < s[j].seqNo
  }

  /** The last n events of a log. */
  function LastN(s: seq<Event>, n: nat): seq<Event> { if |s| <= n then s else s[|s| - n..] }

  /** The Map's key order lists each buffered run once. */
  ghost predicate OrderOk(b: Buffers) {
    && Distinct(b.order)
    && (forall r :: r in b.order <==> r in b.events)
    && (forall r, e :: r in b.events && e in b.events[r] ==> e.runId == r)
  }

  lemma BySeqConsistent()
    ensures Consistent(BY_SEQ)
  {
  }

  lemma {:induction false} AllEventsOf(order: seq<RunId>, events: map<RunId, seq<Event>>, r: RunId)
    requires Distinct(order)
    requires forall x, e :: x in events && e in events[x] ==> e.runId == x
    ensures Filter(IsOf(r), AllEvents(order, events)) == if r in order && r in events then events[r] else []
  {
    if order != [] {
      var head := if order[0] in events then events[order[0]] else [];
      AllEventsOf(order[1..], events, r);
      FilterAppend(IsOf(r), head, AllEvents(order[1..], events));
      assert order == [order[0]] + order[1..];
      if order[0] == r {
        FilterAll(IsOf(r), head);
      } else {
        FilterNone(IsOf(r), head);
      }
    }
  }

  lemma {:induction false} FiltersCommute<T>(p: T -> bool, q: T -> bool, s: seq<T>)
    ensures Filter(p, Filter(q, s)) == Filter(q, Filter(p, s))
  {
    if s != [] {
      FiltersCommute(p, q, s[1..]);
    }
  }

  lemma {:induction false} FilterIncreasing(p: Event -> bool, s: seq<Event>)
    requires Increasing(s)
    ensures Increasing(Filter(p, s))
  {
    if s != [] {
      FilterIncreasing(p, s[1..]);
      FilterMembers(p, s[1..]);
      var f := Filter(p, s[1..]);
      forall j | 0 <= j < |f| ensures s[0].seqNo < f[j].seqNo {
        assert f[j] in s[1..];
      }
    }
  }

  /** Replay from n: the buffered events numbered n or more, in order of number, nothing lost or repeated;
      and restricted to one run, exactly that run's own tail in its own order. */
  lemma ReplaySpec(b: Buffers, n: int, r: RunId)
    requires OrderOk(b) && Increasing(BufferOf(b, r))
    ensures Sorted(BY_SEQ, GetFrom(b, n))
    ensures multiset(GetFrom(b, n)) == multiset(Filter(AtLeast(n), AllEvents(b.order, b.events)))
    ensures Filter(IsOf(r), GetFrom(b, n)) == Filter(AtLeast(n), BufferOf(b, r))
  {
    BySeqConsistent();
    var all := AllEvents(b.order, b.events);
    SortSorts(BY_SEQ, Filter(AtLeast(n), all));
    SortThenFilter(BY_SEQ, IsOf(r), Filter(AtLeast(n), all));
    FiltersCommute(IsOf(r), AtLeast(n), all);
    AllEventsOf(b.order, b.events, r);
    FilterIncreasing(AtLeast(n), BufferOf(b, r));
    SortIdentity(BY_SEQ, Filter(AtLeast(n), BufferOf(b, r)));
  }

  /** In an increasing log the events numbered n or more are a suffix. */
  lemma {:induction false} TailIsSuffix(s: seq<Event>, n: int)
    requires Increasing(s)
    ensures |Filter(AtLeast(n), s)| <= |s|
    ensures Filter(AtLeast(n), s) == s[|s| - |Filter(AtLeast(n), s)|..]
  {
    if s != [] {
      if s[0].seqNo >= n {
        FilterAll(AtLeast(n), s);
      } else {
        TailIsSuffix(s[1..], n);
      }
    }
  }

  /** Selecting the numbers from n and keeping the last maxSize events can be done in either order. */
  lemma TailOfLast(log: seq<Event>, maxSize: nat, n: int)
    requires Increasing(log)
    ensures Filter(AtLeast(n), LastN(log, maxSize)) == LastN(Filter(AtLeast(n), log), maxSize)
  {
    var tail := Filter(AtLeast(n), log);
    var last := LastN(log, maxSize);
    TailIsSuffix(log, n);
    FilterMembers(AtLeast(n), log);
    if |log| > maxSize {
      var cut := |log| - maxSize;
      assert log == log[..cut] + last;
      FilterAppend(AtLeast(n), log[..cut], last);
      if |tail| <= maxSize {
        forall e | e in log[..cut] ensures !AtLeast(n)(e) {
          OutsideTail(log, n, cut, e);
        }
        FilterNone(AtLeast(n), log[..cut]);
      } else {
        assert last == tail[|tail| - maxSize..];
        FilterAll(AtLeast(n), last);
      }
    }
  }

  lemma OutsideTail(log: seq<Event>, n: int, cut: nat, e: Event)
    requires Increasing(log) && cut <= |log| && |Filter(AtLeast(n), log)| <= |log| - cut && e in log[..cut]
    ensures !AtLeast(n)(e)
  {
    var i :| 0 <= i < cut && log[i] == e;
    if AtLeast(n)(e) {
      FilterAll(AtLeast(n), log[i..]);
      assert log == log[..i] + log[i..];
      FilterAppend(AtLeast(n), log[..i], log[i..]);
    }
  }

  /** Pushing with eviction keeps the last maxSize events. */
  lemma EvictIsLastN(log: seq<Event>, maxSize: nat, e: Event)
    ensures Evict(LastN(log, maxSize) + [e], maxSize) == LastN(log + [e], maxSize)
  {
  }
}

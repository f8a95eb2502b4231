/** The per-owner FIFO queue (services/orchestrator/src/services/queue.ts): what each operation
    does to the two maps, and the properties of a well-formed queue. */
module QueueSpec {
  import opened Collections
  import opened RunTypes
  import opened Owner

  /** queues: owner -> waiting runs, oldest first. runToUser: the reverse index. */
  datatype QueueState = QueueState(queues: map<OwnerKey, seq<RunId>>, runToUser: map<RunId, OwnerKey>)

  const EMPTY: QueueState := QueueState(map[], map[])

  function Lane(q: QueueState, u: OwnerKey): seq<RunId> {
    if u in q.queues then q.queues[u] else []
  }

  function WithLane(q: QueueState, u: OwnerKey, lane: seq<RunId>): map<OwnerKey, seq<RunId>> {
    if lane == [] then q.queues - {u} else q.queues[u := lane]
  }

  function Enqueue(q: QueueState, r: RunId, u: OwnerKey): QueueState {
    QueueState(q.queues[u := Lane(q, u) + [r]], q.runToUser[r := u])
  }

  function Peek(q: QueueState, u: OwnerKey): Option<RunId> {
    if Lane(q, u) == [] then None else Some(Lane(q, u)[0])
  }

  function Dequeue(q: QueueState, u: OwnerKey): QueueState {
    var lane := Lane(q, u);
    if lane == [] then q
    else QueueState(WithLane(q, u, lane[1..]), q.runToUser - {lane[0]})
  }

  /** Where a run waits. An owner key of "" reads as "no owner" in the code. */
  function Locate(q: QueueState, r: RunId): Option<nat> {
    if r !in q.runToUser || q.runToUser[r] == [] then None
    else
      var i := IndexOf(Lane(q, q.runToUser[r]), r);
      if i == -1 then None else Some(i)
  }

  function Remove(q: QueueState, r: RunId): QueueState {
    match Locate(q, r)
    case None => q
    case Some(i) =>
      var u := q.runToUser[r];
      QueueState(WithLane(q, u, RemoveAt(Lane(q, u), i)), q.runToUser - {r})
  }

  /** The reverse index agrees with a scan of the lanes; lanes are never empty and never repeat a run. */
  ghost predicate WF(q: QueueState) {
    && (forall u :: u in q.queues ==> q.queues[u] != [] && Distinct(q.queues[u]))
    && (forall u, i :: u in q.queues && 0 <= i < |q.queues[u]| ==>
          q.queues[u][i] in q.runToUser && q.runToUser[q.queues[u][i]] == u)
    && (forall r :: r in q.runToUser ==> r in Lane(q, q.runToUser[r]))
  }

  /** The index is exactly the scan. */
  lemma IndexIsScan(q: QueueState, r: RunId, u: OwnerKey)
    requires WF(q)
    ensures (r in q.runToUser && q.runToUser[r] == u) <==> r in Lane(q, u)
  {
  }

  /** Enqueuing keeps the queue well-formed exactly when the run is not waiting already. */
  lemma EnqueueWFIff(q: QueueState, r: RunId, u: OwnerKey)
    requires WF(q)
    ensures WF(Enqueue(q, r, u)) <==> r !in q.runToUser
    ensures Lane(Enqueue(q, r, u), u) == Lane(q, u) + [r]
    ensures forall v :: v != u ==> Lane(Enqueue(q, r, u), v) == Lane(q, v)
  {
    var q' := Enqueue(q, r, u);
    if r in q.runToUser {
      var v := q.runToUser[r];
      var i :| 0 <= i < |Lane(q, v)| && Lane(q, v)[i] == r;
      assert q'.queues[v][i] == r;
      if v == u {
        assert q'.queues[u][|Lane(q, u)|] == r;
      }
    } else {
      IndexIsScan(q, r, u);
      assert r !in Lane(q, u);
      forall x | x in q'.runToUser ensures x in Lane(q', q'.runToUser[x]) {
        if x != r { IndexIsScan(q, x, q.runToUser[x]); }
      }
    }
  }

  lemma DequeueLanes(q: QueueState, u: OwnerKey)
    ensures Lane(q, u) != [] ==> Lane(q, u) == [Peek(q, u).value] + Lane(Dequeue(q, u), u)
    ensures Lane(q, u) == [] ==> Dequeue(q, u) == q
    ensures forall v :: v != u ==> Lane(Dequeue(q, u), v) == Lane(q, v)
  {
  }

  lemma DequeueWF(q: QueueState, u: OwnerKey)
    requires WF(q)
    ensures WF(Dequeue(q, u))
    ensures Lane(q, u) != [] ==> Lane(q, u) == [Peek(q, u).value] + Lane(Dequeue(q, u), u)
    ensures Lane(q, u) == [] ==> Dequeue(q, u) == q
    ensures forall v :: v != u ==> Lane(Dequeue(q, u), v) == Lane(q, v)
    ensures Dequeue(q, u).runToUser == q.runToUser - (if Lane(q, u) == [] then {} else {Lane(q, u)[0]})
  {
    var q' := Dequeue(q, u);
    if Lane(q, u) != [] {
      var r := Lane(q, u)[0];
      forall x | x in q'.runToUser ensures x in Lane(q', q'.runToUser[x]) {
        IndexIsScan(q, x, q.runToUser[x]);
      }
      forall v, i | v in q'.queues && 0 <= i < |q'.queues[v]|
        ensures q'.queues[v][i] in q'.runToUser && q'.runToUser[q'.queues[v][i]] == v
      {
        if v == u { assert q'.queues[v][i] == q.queues[u][i + 1]; }
        assert q'.queues[v][i] in Lane(q, v);
        IndexIsScan(q, q'.queues[v][i], v);
      }
    }
  }

  lemma RemoveLanes(q: QueueState, r: RunId)
    requires Locate(q, r).Some?
    ensures var u := q.runToUser[r];
            var i := Locate(q, r).value;
            && i < |Lane(q, u)| && Lane(q, u)[i] == r
            && Lane(Remove(q, r), u) == RemoveAt(Lane(q, u), i)
            && Remove(q, r).runToUser == q.runToUser - {r}
            && (forall v :: v != u ==> Lane(Remove(q, r), v) == Lane(q, v))
            && (forall v :: v in Remove(q, r).queues ==> Lane(Remove(q, r), v) != [] || v in q.queues - {u})
  {
  }

  /** Removal takes out exactly one run, shifts every later position of that lane down by one
      and leaves the other lanes alone. */
  lemma RemoveWF(q: QueueState, r: RunId)
    requires WF(q)
    ensures WF(Remove(q, r))
    ensures Locate(q, r).Some? ==>
              var u := q.runToUser[r];
              var i := Locate(q, r).value;
              && i < |Lane(q, u)| && Lane(q, u)[i] == r
              && Lane(Remove(q, r), u) == RemoveAt(Lane(q, u), i)
              && Remove(q, r).runToUser == q.runToUser - {r}
              && (forall v :: v != u ==> Lane(Remove(q, r), v) == Lane(q, v))
    ensures Locate(q, r).None? ==> Remove(q, r) == q
  {
    if Locate(q, r).Some? {
      RemoveLanes(q, r);
      OneLeaves(q, r, Locate(q, r).value, Remove(q, r));
    }
  }

  lemma OneLeaves(q: QueueState, r: RunId, i: nat, q': QueueState)
    requires WF(q) && r in q.runToUser
    requires var u := q.runToUser[r];
             && i < |Lane(q, u)| && Lane(q, u)[i] == r
             && Lane(q', u) == RemoveAt(Lane(q, u), i)
             && q'.runToUser == q.runToUser - {r}
             && (forall v :: v != u ==> Lane(q', v) == Lane(q, v))
             && (forall v :: v in q'.queues ==> Lane(q', v) != [] || v in q.queues - {u})
    ensures WF(q')
  {
    var u := q.runToUser[r];
    RemoveAtMembers(Lane(q, u), i);
    forall x | x in q'.runToUser ensures x in Lane(q', q'.runToUser[x]) {
      IndexIsScan(q, x, q.runToUser[x]);
    }
    forall v | v in q'.queues ensures q'.queues[v] != [] && Distinct(q'.queues[v]) {
      assert Lane(q', v) == q'.queues[v];
      assert v != u ==> v in q.queues || Lane(q, v) != [];
    }
    forall v, k | v in q'.queues && 0 <= k < |q'.queues[v]|
      ensures q'.queues[v][k] in q'.runToUser && q'.runToUser[q'.queues[v][k]] == v
    {
      assert q'.queues[v][k] in Lane(q', v);
      IndexIsScan(q, q'.queues[v][k], v);
    }
  }

  /** A waiting run is found, and so removable, exactly when its owner key is not empty. */
  lemma LocatedIff(q: QueueState, r: RunId)
    requires WF(q)
    ensures Locate(q, r).Some? <==> r in q.runToUser && q.runToUser[r] != []
    ensures r !in Remove(q, r).runToUser <==> (r in q.runToUser ==> q.runToUser[r] != [])
  {
    RemoveWF(q, r);
  }

  /** What removing r does to the position of another waiting run x. */
  lemma RemovePositions(q: QueueState, r: RunId, x: RunId)
    requires WF(q) && Locate(q, r).Some? && Locate(q, x).Some? && x != r
    ensures Locate(Remove(q, r), x).Some?
    ensures Locate(Remove(q, r), x).value
         == Locate(q, x).value
            - (if q.runToUser[x] == q.runToUser[r] && Locate(q, r).value < Locate(q, x).value then 1 else 0)
  {
    RemoveWF(q, r);
    var q' := Remove(q, r);
    var u := q.runToUser[x];
    var i, k := Locate(q, r).value, Locate(q, x).value;
    if u == q.runToUser[r] {
      var k' := if k < i then k else k - 1;
      assert Lane(q', u)[k'] == x;
      assert u in q'.queues;
      IndexOfDistinct(Lane(q', u), k');
    }
  }

  /** A run enters at the end of its lane... */
  lemma EnqueueAtEnd(q: QueueState, r: RunId, u: OwnerKey)
    requires WF(q) && r !in q.runToUser && u != []
    ensures Locate(Enqueue(q, r, u), r) == Some(|Lane(q, u)|)
  {
    EnqueueWFIff(q, r, u);
    var q' := Enqueue(q, r, u);
    assert Lane(q', u)[|Lane(q, u)|] == r;
    IndexOfDistinct(Lane(q', u), |Lane(q, u)|);
  }

  /** ...and nobody who waits already moves. */
  lemma EnqueueKeepsPosition(q: QueueState, r: RunId, u: OwnerKey, x: RunId)
    requires WF(q) && r !in q.runToUser && Locate(q, x).Some?
    ensures Locate(Enqueue(q, r, u), x) == Locate(q, x)
  {
    EnqueueWFIff(q, r, u);
    var q' := Enqueue(q, r, u);
    if q.runToUser[x] == u {
      assert Lane(q', u)[Locate(q, x).value] == x;
      IndexOfDistinct(Lane(q', u), Locate(q, x).value);
    }
  }

  /** Every run that waits in both queues waits at the same or an earlier position in the second. */
  ghost predicate NoLater(q: QueueState, q': QueueState) {
    forall r :: r in q.runToUser && r in q'.runToUser && Locate(q, r).Some? ==>
      Locate(q', r).Some? && Locate(q', r).value <= Locate(q, r).value
  }

  lemma EnqueueNoLater(q: QueueState, r: RunId, u: OwnerKey)
    requires WF(q) && r !in q.runToUser && u != []
    ensures NoLater(q, Enqueue(q, r, u))
  {
    forall x | x in q.runToUser && Locate(q, x).Some?
      ensures Locate(Enqueue(q, r, u), x) == Locate(q, x)
    {
      EnqueueKeepsPosition(q, r, u, x);
    }
  }

  lemma DequeueNoLater(q: QueueState, u: OwnerKey)
    requires WF(q)
    ensures NoLater(q, Dequeue(q, u))
  {
    var q' := Dequeue(q, u);
    DequeueWF(q, u);
    forall r | r in q.runToUser && r in q'.runToUser && Locate(q, r).Some?
      ensures Locate(q', r).Some? && Locate(q', r).value <= Locate(q, r).value
    {
      LocatedIff(q', r);
      if Lane(q, u) != [] && q.runToUser[r] == u {
        var k := Locate(q, r).value;
        assert Lane(q', u)[k - 1] == r;
        IndexOfDistinct(Lane(q', u), k - 1);
      }
    }
  }

  lemma RemoveNoLater(q: QueueState, r: RunId)
    requires WF(q)
    ensures NoLater(q, Remove(q, r))
  {
    if Locate(q, r).Some? {
      forall x | x in q.runToUser && x in Remove(q, r).runToUser && Locate(q, x).Some?
        ensures Locate(Remove(q, r), x).Some? && Locate(Remove(q, r), x).value <= Locate(q, x).value
      {
        RemovePositions(q, r, x);
      }
    }
  }
}

/** The queue as the service keeps it: two maps updated in place. */
module RunQueue {
  import opened Collections
  import opened RunTypes
  import opened Owner
  import Q = QueueSpec

  class InMemoryRunQueue {
    var queues: map<OwnerKey, seq<RunId>>
    var runToUser: map<RunId, OwnerKey>

    ghost function State(): Q.QueueState
      reads this
    {
      Q.QueueState(queues, runToUser)
    }

    constructor ()
      ensures State() == Q.EMPTY
    {
      queues, runToUser := map[], map[];
    }

    method Enqueue(runId: RunId, userId: OwnerKey) returns (position: nat)
      modifies this
      ensures State() == Q.Enqueue(old(State()), runId, userId)
      ensures position == |Q.Lane(old(State()), userId)|
    {
      if userId !in queues {
        queues := queues[userId := []];
      }
      queues := queues[userId := queues[userId] + [runId]];
      runToUser := runToUser[runId := userId];
      position := |queues[userId]| - 1;
    }

    method Dequeue(userId: OwnerKey) returns (head: Option<RunId>)
      modifies this
      ensures State() == Q.Dequeue(old(State()), userId)
      ensures head == Q.Peek(old(State()), userId)
    {
      if userId !in queues || queues[userId] == [] {
        return None;
      }
      var runId := queues[userId][0];
      queues := queues[userId := queues[userId][1..]];
      runToUser := runToUser - {runId};
      if queues[userId] == [] {
        queues := queues - {userId};
      }
      head := Some(runId);
    }

    method Peek(userId: OwnerKey) returns (head: Option<RunId>)
      ensures head == Q.Peek(State(), userId)
    {
      if userId !in queues || queues[userId] == [] {
        return None;
      }
      head := Some(queues[userId][0]);
    }

    method Remove(runId: RunId) returns (found: bool)
      modifies this
      ensures State() == Q.Remove(old(State()), runId)
      ensures found <==> Q.Locate(old(State()), runId).Some?
    {
      if runId !in runToUser || runToUser[runId] == [] {
        return false;
      }
      var userId := runToUser[runId];
      if userId !in queues {
        return false;
      }
      var index := IndexOf(queues[userId], runId);
      if index == -1 {
        return false;
      }
      queues := queues[userId := RemoveAt(queues[userId], index)];
      runToUser := runToUser - {runId};
      if queues[userId] == [] {
        queues := queues - {userId};
      }
      found := true;
    }

    method GetPosition(runId: RunId) returns (position: Option<nat>)
      ensures position == Q.Locate(State(), runId)
    {
      if runId !in runToUser || runToUser[runId] == [] {
        return None;
      }
      var userId := runToUser[runId];
      if userId !in queues {
        return None;
      }
      var index := IndexOf(queues[userId], runId);
      position := if index == -1 then None else Some(index);
    }
  }
}

/** Time-limited leases, one per owner (services/orchestrator/src/services/lease.ts). */
module LeaseSpec {
  import opened Collections
  import opened RunTypes
  import opened Owner

  datatype Lease = Lease(runId: RunId, token: Token, acquiredAt: Time, expiresAt: Time)

  /** leases: owner -> its lease. tokenToUser: the reverse index. */
  datatype LeaseState = LeaseState(leases: map<OwnerKey, Lease>, tokenToUser: map<Token, OwnerKey>)

  const EMPTY: LeaseState := LeaseState(map[], map[])

  const DEFAULT_LEASE_TTL_MS: int := 30_000

  /** Does the owner have a lease that has not run out? */
  predicate Held(l: LeaseState, now: Time, u: OwnerKey) {
    u in l.leases && l.leases[u].expiresAt > now
  }

  /** An unexpired lease blocks; an expired one is replaced. */
  function Acquire(l: LeaseState, now: Time, u: OwnerKey, r: RunId, token: Token, ttlMs: int): LeaseState {
    if Held(l, now, u) then l
    else
      var tokens := if u in l.leases then l.tokenToUser - {l.leases[u].token} else l.tokenToUser;
      LeaseState(l.leases[u := Lease(r, token, now, now + ttlMs)], tokens[token := u])
  }

  /** The owner whose current lease carries this token. An owner key of "" reads as "not found". */
  function Holder(l: LeaseState, token: Token): Option<OwnerKey> {
    if token !in l.tokenToUser || l.tokenToUser[token] == [] then None
    else
      var u := l.tokenToUser[token];
      if u in l.leases && l.leases[u].token == token then Some(u) else None
  }

  function Release(l: LeaseState, token: Token): LeaseState {
    match Holder(l, token)
    case None => l
    case Some(u) => LeaseState(l.leases - {u}, l.tokenToUser - {token})
  }

  function Extend(l: LeaseState, token: Token, additionalMs: int): LeaseState {
    match Holder(l, token)
    case None => l
    case Some(u) =>
      var lease := l.leases[u];
      l.(leases := l.leases[u := lease.(expiresAt := lease.expiresAt + additionalMs)])
  }

  /** Asking whether a lease is active drops it when it has run out. */
  function Probe(l: LeaseState, now: Time, u: OwnerKey): LeaseState {
    if u in l.leases && l.leases[u].expiresAt <= now then
      LeaseState(l.leases - {u}, l.tokenToUser - {l.leases[u].token})
    else l
  }

  function Expired(l: LeaseState, now: Time): set<OwnerKey> {
    set u | u in l.leases && l.leases[u].expiresAt <= now
  }

  /** The leases of some owners taken away, with their tokens. */
  function Drop(l: LeaseState, owners: set<OwnerKey>): LeaseState
    requires owners <= l.leases.Keys
  {
    LeaseState(l.leases - owners, l.tokenToUser - (set u | u in owners :: l.leases[u].token))
  }

  function Cleanup(l: LeaseState, now: Time): LeaseState {
    Drop(l, Expired(l, now))
  }

  lemma DropOneMore(l: LeaseState, owners: set<OwnerKey>, u: OwnerKey)
    requires owners <= l.leases.Keys && u in l.leases
    ensures Drop(l, owners + {u})
         == LeaseState(Drop(l, owners).leases - {u}, Drop(l, owners).tokenToUser - {l.leases[u].token})
  {
    assert (set v | v in owners + {u} :: l.leases[v].token)
        == (set v | v in owners :: l.leases[v].token) + {l.leases[u].token};
  }

  /** The token index is exactly the inverse of the leases. */
  ghost predicate WF(l: LeaseState) {
    && (forall u :: u in l.leases ==> l.leases[u].token in l.tokenToUser && l.tokenToUser[l.leases[u].token] == u)
    && (forall t :: t in l.tokenToUser ==> l.tokenToUser[t] in l.leases && l.leases[l.tokenToUser[t]].token == t)
  }

  datatype LeaseOp =
    | AcquireOp(u: OwnerKey, r: RunId, issued: Token, ttlMs: int)
    | ReleaseOp(token: Token)
    | ExtendOp(token: Token, additionalMs: int)
    | ProbeOp(u: OwnerKey)
    | CleanupOp

  /** One call at some moment of the clock. */
  datatype TimedOp = At(now: Time, op: LeaseOp)

  function Apply(l: LeaseState, t: TimedOp): LeaseState {
    match t.op
    case AcquireOp(u, r, token, ttlMs) => Acquire(l, t.now, u, r, token, ttlMs)
    case ReleaseOp(token) => Release(l, token)
    case ExtendOp(token, ms) => Extend(l, token, ms)
    case ProbeOp(u) => Probe(l, t.now, u)
    case CleanupOp => Cleanup(l, t.now)
  }

  function ApplyAll(l: LeaseState, ops: seq<TimedOp>): LeaseState
    decreases |ops|
  {
    if ops == [] then l
    else ApplyAll(Apply(l, ops[0]), ops[1..])
  }

  /** Tokens handed out by a history of calls. */
  function Issued(ops: seq<TimedOp>): seq<Token> {
    if ops == [] then []
    else (if ops[0].op.AcquireOp? then [ops[0].op.issued] else []) + Issued(ops[1..])
  }

  lemma ApplyWF(l: LeaseState, t: TimedOp)
    requires WF(l)
    requires t.op.AcquireOp? ==> t.op.issued !in l.tokenToUser
    ensures WF(Apply(l, t))
    ensures forall tok :: tok in Apply(l, t).tokenToUser ==>
              tok in l.tokenToUser || (t.op.AcquireOp? && tok == t.op.issued)
  {
    var l' := Apply(l, t);
    if t.op.CleanupOp? {
      forall u | u in l'.leases
        ensures l'.leases[u].token in l'.tokenToUser && l'.tokenToUser[l'.leases[u].token] == u
      {
        assert u in l.leases;
      }
      forall tok | tok in l'.tokenToUser
        ensures l'.tokenToUser[tok] in l'.leases && l'.leases[l'.tokenToUser[tok]].token == tok
      {
        assert l.leases[l.tokenToUser[tok]].token == tok;
      }
    }
  }

  /** No call of the history issues a token that is live at that moment. */
  ghost predicate FreshTokens(l: LeaseState, ops: seq<TimedOp>)
    decreases |ops|
  {
    ops == [] || ((ops[0].op.AcquireOp? ==> ops[0].op.issued !in l.tokenToUser)
                  && FreshTokens(Apply(l, ops[0]), ops[1..]))
  }

  /** After any history of calls the index is the exact inverse of the leases. */
  lemma {:induction false} HistoryWF(l: LeaseState, ops: seq<TimedOp>)
    requires WF(l) && FreshTokens(l, ops)
    ensures WF(ApplyAll(l, ops))
    decreases |ops|
  {
    hide WF;
    if ops != [] {
      ApplyWF(l, ops[0]);
      HistoryWF(Apply(l, ops[0]), ops[1..]);
    }
  }

  /** Fencing. A token that is no longer live (released, or superseded after expiry) stays dead
      through every later history that does not issue it again, and from then on releasing or
      extending with it changes nothing. */
  lemma {:induction false} DeadTokenStaysDead(l: LeaseState, ops: seq<TimedOp>, token: Token)
    requires token !in l.tokenToUser && token !in Issued(ops)
    ensures token !in ApplyAll(l, ops).tokenToUser
    ensures Release(ApplyAll(l, ops), token) == ApplyAll(l, ops)
    ensures forall ms :: Extend(ApplyAll(l, ops), token, ms) == ApplyAll(l, ops)
    ensures Holder(ApplyAll(l, ops), token).None?
    decreases |ops|
  {
    if ops != [] {
      assert forall tok :: tok in Issued(ops[1..]) ==> tok in Issued(ops);
      if ops[0].op.AcquireOp? { assert Issued(ops)[0] == ops[0].op.issued; }
      DeadTokenStaysDead(Apply(l, ops[0]), ops[1..], token);
    }
  }

  /** A lease that is granted at some moment holds its owner for exactly its time to live, under its own token. */
  lemma LeaseLasts(l: LeaseState, now: Time, u: OwnerKey, r: RunId, token: Token, ttlMs: int, later: Time)
    requires !Held(l, now, u)
    ensures var l' := Acquire(l, now, u, r, token, ttlMs);
            && (Held(l', later, u) <==> later < now + ttlMs)
            && u in l'.leases && l'.leases[u].runId == r && l'.leases[u].token == token
            && l'.leases[u].acquiredAt == now
            && (forall v :: v != u ==> (Held(l', later, v) <==> Held(l, later, v)))
  {
  }

  /** Extending a live token's lease moves the end of its hold by that much, and touches no other owner. */
  lemma ExtendShifts(l: LeaseState, token: Token, additionalMs: int, later: Time)
    requires WF(l) && token in l.tokenToUser && l.tokenToUser[token] != []
    ensures var u := l.tokenToUser[token]; var l' := Extend(l, token, additionalMs);
            && (Held(l', later, u) <==> Held(l, later - additionalMs, u))
            && l'.tokenToUser == l.tokenToUser && l'.leases.Keys == l.leases.Keys
            && (forall v :: v != u ==> (Held(l', later, v) <==> Held(l, later, v)))
  {
  }

  /** Dropping what has expired changes nothing about who is held from then on, and leaves nothing expired. */
  lemma SweepIsInvisible(l: LeaseState, now: Time, later: Time, v: OwnerKey)
    requires now <= later
    ensures Held(Cleanup(l, now), later, v) <==> Held(l, later, v)
    ensures v in Cleanup(l, now).leases ==> Cleanup(l, now).leases[v] == l.leases[v] && Held(l, now, v)
    ensures forall u :: Held(Probe(l, now, u), later, v) <==> Held(l, later, v)
    ensures v in Probe(l, now, v).leases <==> Held(l, now, v)
  {
  }

  /** A released token dies unless its owner key is "", for which release does nothing. */
  lemma ReleaseKillsIff(l: LeaseState, token: Token)
    requires WF(l)
    ensures token !in Release(l, token).tokenToUser
       <==> (token in l.tokenToUser ==> l.tokenToUser[token] != [])
  {
  }

  /** Taking over an expired lease kills the token it carried. */
  lemma SupersededTokenDies(l: LeaseState, now: Time, u: OwnerKey, r: RunId, token: Token, ttlMs: int)
    requires WF(l) && u in l.leases && l.leases[u].expiresAt <= now && token !in l.tokenToUser
    ensures l.leases[u].token !in Acquire(l, now, u, r, token, ttlMs).tokenToUser
    ensures Holder(Acquire(l, now, u, r, token, ttlMs), token) == if u == [] then None else Some(u)
  {
  }
}

/** The lease manager as the service keeps it. */
module LeaseManager {
  import opened Collections
  import opened RunTypes
  import opened Owner
  import L = LeaseSpec

  datatype LeaseError = LeaseNotFound

  class InMemoryLeaseManager {
    var leases: map<OwnerKey, L.Lease>
    var tokenToUser: map<Token, OwnerKey>

    ghost function State(): L.LeaseState
      reads this
    {
      L.LeaseState(leases, tokenToUser)
    }

    constructor ()
      ensures State() == L.EMPTY
    {
      leases, tokenToUser := map[], map[];
    }

    method Acquire(now: Time, userId: OwnerKey, runId: RunId, ttlMs: int, token: Token)
      returns (lease: Option<L.Lease>)
      modifies this
      ensures State() == L.Acquire(old(State()), now, userId, runId, token, ttlMs)
      ensures lease == if L.Held(old(State()), now, userId) then None
                       else Some(L.Lease(runId, token, now, now + ttlMs))
    {
      if userId in leases {
        if leases[userId].expiresAt > now {
          return None;
        }
        tokenToUser := tokenToUser - {leases[userId].token};
      }
      var granted := L.Lease(runId, token, now, now + ttlMs);
      leases := leases[userId := granted];
      tokenToUser := tokenToUser[token := userId];
      lease := Some(granted);
    }

    method Release(leaseToken: Token)
      modifies this
      ensures State() == L.Release(old(State()), leaseToken)
    {
      if leaseToken !in tokenToUser || tokenToUser[leaseToken] == [] {
        return;
      }
      var userId := tokenToUser[leaseToken];
      if userId in leases && leases[userId].token == leaseToken {
        leases := leases - {userId};
        tokenToUser := tokenToUser - {leaseToken};
      }
    }

    method Extend(leaseToken: Token, additionalMs: int) returns (result: Result<(), LeaseError>)
      modifies this
      ensures State() == L.Extend(old(State()), leaseToken, additionalMs)
      ensures result.Success? <==> L.Holder(old(State()), leaseToken).Some?
    {
      if leaseToken !in tokenToUser || tokenToUser[leaseToken] == [] {
        return Failure(LeaseNotFound);
      }
      var userId := tokenToUser[leaseToken];
      if userId !in leases || leases[userId].token != leaseToken {
        return Failure(LeaseNotFound);
      }
      var lease := leases[userId];
      leases := leases[userId := lease.(expiresAt := lease.expiresAt + additionalMs)];
      result := Success(());
    }

    method IsActive(now: Time, userId: OwnerKey) returns (active: bool)
      modifies this
      ensures State() == L.Probe(old(State()), now, userId)
      ensures active <==> L.Held(old(State()), now, userId)
    {
      if userId !in leases {
        return false;
      }
      if leases[userId].expiresAt <= now {
        tokenToUser := tokenToUser - {leases[userId].token};
        leases := leases - {userId};
        return false;
      }
      active := true;
    }

    method GetActiveRun(now: Time, userId: OwnerKey) returns (runId: Option<RunId>)
      modifies this
      ensures State() == L.Probe(old(State()), now, userId)
      ensures runId == if L.Held(old(State()), now, userId) then Some(old(leases)[userId].runId) else None
    {
      var active := IsActive(now, userId);
      if !active {
        return None;
      }
      runId := Some(leases[userId].runId);
    }

    method GetLease(now: Time, leaseToken: Token) returns (lease: Option<L.Lease>)
      ensures lease == match L.Holder(State(), leaseToken)
                       case None => None
                       case Some(u) => if leases[u].expiresAt <= now then None else Some(leases[u])
    {
      if leaseToken !in tokenToUser || tokenToUser[leaseToken] == [] {
        return None;
      }
      var userId := tokenToUser[leaseToken];
      if userId !in leases || leases[userId].token != leaseToken || leases[userId].expiresAt <= now {
        return None;
      }
      lease := Some(leases[userId]);
    }

    method CleanupExpired(now: Time) returns (cleaned: nat)
      modifies this
      ensures State() == L.Cleanup(old(State()), now)
      ensures cleaned == |L.Expired(old(State()), now)|
    {
      cleaned := 0;
      var todo := leases.Keys;
      ghost var before := State();
      ghost var gone: set<OwnerKey> := {};
      assert L.Drop(before, gone) == before;
      while todo != {}
        invariant todo <= before.leases.Keys && todo !! gone
        invariant gone <= before.leases.Keys
        invariant forall u :: u in before.leases && u !in todo ==>
                    (u in gone <==> before.leases[u].expiresAt <= now)
        invariant State() == L.Drop(before, gone)
        invariant cleaned == |gone|
      {
        var userId :| userId in todo;
        if leases[userId].expiresAt <= now {
          L.DropOneMore(before, gone, userId);
          tokenToUser := tokenToUser - {leases[userId].token};
          leases := leases - {userId};
          cleaned := cleaned + 1;
          gone := gone + {userId};
        }
        todo := todo - {userId};
      }
      assert gone == L.Expired(before, now);
    }
  }
}

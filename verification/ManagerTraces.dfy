/** Histories of the run manager, from empty, that lead to the states the theorems warn of. */
module ManagerTraces {
  import opened Collections
  import opened RunTypes
  import opened Owner
  import opened ManagerSpec
  import opened ManagerInvariant
  import opened ManagerTheorems
  import StalePeek
  import Q = QueueSpec
  import L = LeaseSpec

  /** Owners the gateway lets through have a key, and not an empty one. */
  predicate HasKey(owner: OwnerPrincipal, u: OwnerKey) {
    OwnerKeyFromPrincipal(owner) == Some(u) && u != []
  }

  /** w is where these calls lead from the empty manager at time start. */
  ghost predicate Reached(cfg: Config, start: Time, calls: seq<Call>, w: World) {
    AllAllowed(World(EMPTY, start), cfg, calls) && ManagerTheorems.Run(World(EMPTY, start), cfg, calls) == w
  }

  lemma {:induction false} Extend(w: World, cfg: Config, calls: seq<Call>, c: Call)
    requires AllAllowed(w, cfg, calls) && Allowed(ManagerTheorems.Run(w, cfg, calls), c)
    ensures AllAllowed(w, cfg, calls + [c])
    ensures ManagerTheorems.Run(w, cfg, calls + [c]) == Step(ManagerTheorems.Run(w, cfg, calls), cfg, c)
    decreases |calls|
  {
    hide Step, Allowed;
    if calls == [] {
      assert [] + [c] == [c] && [c][1..] == [];
    } else {
      assert (calls + [c])[1..] == calls[1..] + [c];
      Extend(Step(w, cfg, calls[0]), cfg, calls[1..], c);
    }
  }

  lemma Go(cfg: Config, start: Time, calls: seq<Call>, w: World, c: Call)
    requires Reached(cfg, start, calls, w) && Allowed(w, c)
    ensures var w' := Step(w, cfg, c); Reached(cfg, start, calls + [c], w') && Inv(w'.m, cfg, w'.now)
  {
    hide Step, Allowed, Inv;
    Extend(World(EMPTY, start), cfg, calls, c);
    InitInv(cfg, start);
    HistoryKeeps(World(EMPTY, start), cfg, calls + [c]);
  }

  /** Two runs of one owner wait and nothing has been leased. */
  predicate TwoWaiting(m: Manager, u: OwnerKey, r: RunId, x: RunId) {
    && r != x && Q.Lane(m.queue, u) == [r, x] && m.leases == L.EMPTY && m.runs.Keys == {r, x}
  }

  function ToTwo(owner: OwnerPrincipal, r: RunId, x: RunId): seq<Call> {
    [Create(r, owner, None)] + [Create(x, owner, None)]
  }

  lemma CreateBoth(cfg: Config, start: Time, owner: OwnerPrincipal, u: OwnerKey, r: RunId, x: RunId)
    requires HasKey(owner, u) && r != x
    ensures var w := World(EMPTY, start); var w1 := Step(w, cfg, Create(r, owner, None));
            Allowed(w, Create(r, owner, None)) && Allowed(w1, Create(x, owner, None))
            && TwoWaiting(Step(w1, cfg, Create(x, owner, None)).m, u, r, x)
  {
    hide OwnerKeyFromPrincipal;
    assert [r] + [x] == [r, x];
  }

  lemma TwoReached(cfg: Config, start: Time, owner: OwnerPrincipal, u: OwnerKey, r: RunId, x: RunId) returns (w: World)
    requires HasKey(owner, u) && r != x
    ensures Reached(cfg, start, ToTwo(owner, r, x), w) && Inv(w.m, cfg, w.now)
    ensures TwoWaiting(w.m, u, r, x) && w.now == start
  {
    CreateBoth(cfg, start, owner, u, r, x);
    assert Reached(cfg, start, [], World(EMPTY, start)) && [] + [Create(r, owner, None)] == [Create(r, owner, None)];
    hide Reached, Inv, TwoWaiting, CreateRun, Allowed;
    w := World(EMPTY, start);
    Go(cfg, start, [], w, Create(r, owner, None));
    w := Step(w, cfg, Create(r, owner, None));
    Go(cfg, start, [Create(r, owner, None)], w, Create(x, owner, None));
    w := Step(w, cfg, Create(x, owner, None));
  }

  /** The first of them has been leased, the second still waits. */
  ghost predicate OneLeased(m: Manager, now: Time, ttlMs: int, u: OwnerKey, r: RunId, x: RunId, token: Token) {
    && r != x && InState(m.runs, r, LEASED) && m.runs[r].userId == u && m.runs[r].leaseExpiresAt == Some(now + ttlMs)
    && Q.Peek(m.queue, u) == Some(x) && InState(m.runs, x, QUEUED) && m.runs.Keys == {r, x}
    && (forall t :: t != token ==> TokenFresh(m.runs, t))
  }

  lemma AcquireFirst(m: Manager, cfg: Config, now: Time, u: OwnerKey, r: RunId, x: RunId, token: Token)
    requires Inv(m, cfg, now) && TwoWaiting(m, u, r, x)
    ensures TokenFresh(m.runs, token)
    ensures OneLeased(AcquireNextRun(m, cfg, now, u, token).m, now, cfg.leaseTtlMs, u, r, x, token)
  {
    TokensUnused(m, cfg, now, u, r, x);
    HeadIsQueued(m.runs, m.queue, u);
    StalePeek.ResumeIsAtomicIff(m, cfg, now, u, r, token);
    StalePeek.ResumeParts(m, cfg, now, u, r, token);
    NowLeased(m.runs, now, cfg.leaseTtlMs, u, r, x, token);
    SecondIsNext(m.queue, u, r, x);
    hide Inv, AcquireNextRun, StalePeek.Resume, Q.Dequeue, Leased, TokenFresh;
  }

  lemma NowLeased(runs: Runs, now: Time, ttlMs: int, u: OwnerKey, r: RunId, x: RunId, token: Token)
    requires r != x && runs.Keys == {r, x} && runs[r].userId == u
    requires forall y :: y in runs ==> runs[y].state == QUEUED && runs[y].leaseToken.None?
    ensures var runs' := runs[r := Leased(runs[r], now, token, ttlMs)];
            && InState(runs', r, LEASED) && runs'[r].userId == u && runs'[r].leaseExpiresAt == Some(now + ttlMs)
            && InState(runs', x, QUEUED) && runs'.Keys == {r, x}
            && (forall t :: t != token ==> TokenFresh(runs', t))
  {
  }

  lemma SecondIsNext(q: Q.QueueState, u: OwnerKey, r: RunId, x: RunId)
    requires Q.Lane(q, u) == [r, x]
    ensures Q.Peek(Q.Dequeue(q, u), u) == Some(x)
  {
    Q.DequeueLanes(q, u);
    assert Q.Lane(q, u)[1] == x;
  }

  lemma TokensUnused(m: Manager, cfg: Config, now: Time, u: OwnerKey, r: RunId, x: RunId)
    requires Inv(m, cfg, now) && TwoWaiting(m, u, r, x)
    ensures forall y :: y in m.runs ==> m.runs[y].state == QUEUED && m.runs[y].leaseToken.None?
  {
    forall y | y in m.runs ensures m.runs[y].state == QUEUED && m.runs[y].leaseToken.None? {
      assert y in Q.Lane(m.queue, u);
      Q.IndexIsScan(m.queue, y, u);
      assert y in m.queue.runToUser <==> InState(m.runs, y, QUEUED);
      assert RunOk(y, m.runs[y], cfg, now);
    }
  }

  function ToOne(owner: OwnerPrincipal, u: OwnerKey, r: RunId, x: RunId, token: Token): seq<Call> {
    ToTwo(owner, r, x) + [Acquire(u, token)]
  }

  lemma OneReached(cfg: Config, start: Time, owner: OwnerPrincipal, u: OwnerKey, r: RunId, x: RunId, token: Token)
    returns (w: World)
    requires HasKey(owner, u) && r != x
    ensures Reached(cfg, start, ToOne(owner, u, r, x, token), w) && Inv(w.m, cfg, w.now)
    ensures OneLeased(w.m, start, cfg.leaseTtlMs, u, r, x, token) && w.now == start
  {
    hide Reached, Inv, TwoWaiting, OneLeased, AcquireNextRun, TokenFresh, HasKey, ToTwo;
    w := TwoReached(cfg, start, owner, u, r, x);
    AcquireFirst(w.m, cfg, start, u, r, x, token);
    Go(cfg, start, ToTwo(owner, r, x), w, Acquire(u, token));
    w := Step(w, cfg, Acquire(u, token));
  }

  // What happens there.

  lemma NoneUnexpired(m: Manager, start: Time, now: Time, ttlMs: int, u: OwnerKey, r: RunId, x: RunId, token: Token)
    requires OneLeased(m, start, ttlMs, u, r, x, token) && start + ttlMs <= now
    ensures !SomeUnexpired(m.runs, now, u) && Active(m.runs, r) && Q.Peek(m.queue, m.runs[r].userId) == Some(x)
  {
  }

  lemma OtherTokenFresh(m: Manager, start: Time, ttlMs: int, u: OwnerKey, r: RunId, x: RunId, token: Token,
                        other: Token)
    requires OneLeased(m, start, ttlMs, u, r, x, token) && other != token
    ensures TokenFresh(m.runs, other) && m.runs[r].userId == u
  {
  }

  /** Two active runs of one owner: the first one's lease runs out while it is at work, and the next call
      for that owner leases the second. */
  lemma TwoActiveAfterExpiry(cfg: Config, start: Time, owner: OwnerPrincipal, u: OwnerKey, r: RunId, x: RunId,
                             token: Token, other: Token, wait: nat)
    returns (w: World)
    requires HasKey(owner, u) && r != x && token != other && wait >= cfg.leaseTtlMs
    ensures Reached(cfg, start, ToOne(owner, u, r, x, token) + [Wait(wait)] + [Acquire(u, other)], w)
    ensures Active(w.m.runs, r) && Active(w.m.runs, x) && w.m.runs[r].userId == w.m.runs[x].userId
  {
    hide *;
    w := OneReached(cfg, start, owner, u, r, x, token);
    var calls := ToOne(owner, u, r, x, token);
    WaitAllowed(w, cfg, wait);
    Go(cfg, start, calls, w, Wait(wait));
    w := Step(w, cfg, Wait(wait));
    NoneUnexpired(w.m, start, w.now, cfg.leaseTtlMs, u, r, x, token);
    OtherTokenFresh(w.m, start, cfg.leaseTtlMs, u, r, x, token, other);
    ExpiredLeaseAdmitsSecond(w.m, cfg, w.now, r, other);
    AcquireAllowed(w, cfg, u, other);
    Go(cfg, start, calls + [Wait(wait)], w, Acquire(u, other));
    w := Step(w, cfg, Acquire(u, other));
  }

  lemma WaitAllowed(w: World, cfg: Config, ms: nat)
    ensures Allowed(w, Wait(ms)) && Step(w, cfg, Wait(ms)) == World(w.m, w.now + ms)
  {
  }

  lemma AcquireAllowed(w: World, cfg: Config, u: OwnerKey, token: Token)
    requires TokenFresh(w.m.runs, token)
    ensures Allowed(w, Acquire(u, token))
    ensures Step(w, cfg, Acquire(u, token)) == World(AcquireNextRun(w.m, cfg, w.now, u, token).m, w.now)
  {
    hide AcquireNextRun;
  }

  /** Two active runs of one owner, both leases with time left: the first was completed without ever having
      been started. */
  lemma TwoActiveAfterRefusal(cfg: Config, start: Time, owner: OwnerPrincipal, u: OwnerKey, r: RunId, x: RunId,
                              token: Token, other: Token, messages: Option<seq<string>>)
    returns (w: World)
    requires HasKey(owner, u) && r != x && token != other && cfg.leaseTtlMs > 0
    ensures Reached(cfg, start, ToOne(owner, u, r, x, token), w) && !Allowed(w, Complete(r, messages))
    ensures var w' := Step(Step(w, cfg, Complete(r, messages)), cfg, Acquire(u, other));
            && r in w'.m.runs && x in w'.m.runs && w'.m.runs[r].userId == w'.m.runs[x].userId
            && Unexpired(w'.m.runs[r], w'.now) && Unexpired(w'.m.runs[x], w'.now)
  {
    hide *;
    w := OneReached(cfg, start, owner, u, r, x, token);
    OtherTokenFresh(w.m, start, cfg.leaseTtlMs, u, r, x, token, other);
    HasTimeLeft(w.m, start, cfg.leaseTtlMs, u, r, x, token);
    CompletingLeasedAdmitsSecond(w.m, cfg, w.now, r, other, messages);
    CompleteThenAcquire(w, cfg, r, messages, u, other);
  }

  lemma HasTimeLeft(m: Manager, now: Time, ttlMs: int, u: OwnerKey, r: RunId, x: RunId, token: Token)
    requires OneLeased(m, now, ttlMs, u, r, x, token) && ttlMs > 0
    ensures InState(m.runs, r, LEASED) && r in m.runs && Unexpired(m.runs[r], now) && m.runs[r].userId == u
    ensures Q.Peek(m.queue, m.runs[r].userId) == Some(x)
    ensures forall messages :: !Allowed(World(m, now), Complete(r, messages))
  {
  }

  lemma CompleteThenAcquire(w: World, cfg: Config, r: RunId, messages: Option<seq<string>>, u: OwnerKey, token: Token)
    ensures Step(Step(w, cfg, Complete(r, messages)), cfg, Acquire(u, token))
         == World(AcquireNextRun(CompleteRun(w.m, w.now, r, messages).m, cfg, w.now, u, token).m, w.now)
  {
    hide CompleteRun, AcquireNextRun;
  }

  /** A run lost for good: two runs wait, the first is cancelled after it was peeked, and the second leaves
      the queue unleased. */
  lemma StrandingHappens(cfg: Config, start: Time, owner: OwnerPrincipal, u: OwnerKey, r: RunId, x: RunId,
                         token: Token, reason: Option<string>)
    returns (w: World)
    requires HasKey(owner, u) && r != x
    ensures Reached(cfg, start, ToTwo(owner, r, x), w) && Q.Peek(w.m.queue, u) == Some(r)
    ensures var m' := StalePeek.Resume(CancelRun(w.m, w.now, r, reason).m, cfg, w.now, u, r, token).m;
            InState(m'.runs, r, LEASED) && InState(m'.runs, x, QUEUED) && StalePeek.Stranded(m', x)
  {
    w := TwoReached(cfg, start, owner, u, r, x);
    hide Reached, Inv, ToTwo, CancelRun, StalePeek.Resume, StalePeek.Stranded;
    StalePeek.CancelBetweenStrands(w.m, cfg, w.now, u, token, reason);
  }
}

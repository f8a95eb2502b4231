/** Abort contexts (services/orchestrator/src/services/cancellation.ts). */
module CancellationSpec {
  import opened Collections
  import opened RunTypes

  datatype Context = Context(isCancelled: bool, cancelReason: Option<string>)

  type Contexts = map<RunId, Context>

  const NEW_CONTEXT: Context := Context(false, None)

  /** Cancelling works once; the first reason stays. */
  function CancelContext(c: Context, reason: Option<string>): Context {
    if c.isCancelled then c
    else Context(true, Some(if reason.Some? then reason.value else "cancelled"))
  }

  function Create(cs: Contexts, r: RunId): Contexts { cs[r := NEW_CONTEXT] }

  function Remove(cs: Contexts, r: RunId): Contexts { cs - {r} }

  function Cancel(cs: Contexts, r: RunId, reason: Option<string>): Contexts {
    if r in cs then cs[r := CancelContext(cs[r], reason)] else cs
  }

  /** The reason carried by the abort event this cancellation dispatches, if it dispatches one. */
  function AbortEvent(cs: Contexts, r: RunId, reason: Option<string>): Option<string> {
    if r in cs && !cs[r].isCancelled then CancelContext(cs[r], reason).cancelReason else None
  }

  /** Abort events are dispatched at most once per context, with the first reason given, which stays; a second
      cancel is silent and inert. */
  lemma CancelOnce(cs: Contexts, r: RunId, first: Option<string>, second: Option<string>)
    ensures var cs1 := Cancel(cs, r, first);
            Cancel(cs1, r, second) == cs1 && AbortEvent(cs1, r, second).None?
    ensures r in cs && !cs[r].isCancelled ==>
              var reason := match first case None => "cancelled" case Some(text) => text;
              AbortEvent(cs, r, first) == Some(reason)
              && Cancel(cs, r, first) == cs[r := Context(true, Some(reason))]
  {
    var cs1 := Cancel(cs, r, first);
    if r in cs { assert cs1[r := cs1[r]] == cs1; }
  }
}

module CancellationRegistry {
  import opened Collections
  import opened RunTypes
  import C = CancellationSpec

  class CancellationContext {
    const runId: RunId
    var isCancelled: bool
    var cancelReason: Option<string>

    ghost function State(): C.Context
      reads this
    {
      C.Context(isCancelled, cancelReason)
    }

    constructor (runId: RunId)
      ensures this.runId == runId && State() == C.NEW_CONTEXT
    {
      this.runId := runId;
      isCancelled, cancelReason := false, None;
    }

    /** Returns the reason handed to the abort listeners, if the signal fires. */
    method Cancel(reason: Option<string>) returns (aborted: Option<string>)
      modifies this
      ensures State() == C.CancelContext(old(State()), reason)
      ensures aborted == if old(isCancelled) then None else cancelReason
    {
      if isCancelled {
        return None;
      }
      isCancelled := true;
      cancelReason := Some(if reason.Some? then reason.value else "cancelled");
      aborted := cancelReason;
    }
  }

  class InMemoryCancellationRegistry {
    var contexts: map<RunId, CancellationContext>
    ghost var State: C.Contexts

    ghost var Repr: set<object>

    /** Each context belongs to one run, and State says what they hold. */
    ghost predicate Valid()
      reads this, Repr
    {
      && this in Repr
      && (forall r :: r in contexts ==> contexts[r] in Repr)
      && (forall r, x :: r in contexts && x in contexts && contexts[r] == contexts[x] ==> r == x)
      && State.Keys == contexts.Keys
      && (forall r :: r in contexts ==> State[r] == contexts[r].State())
    }

    constructor ()
      ensures Valid() && fresh(Repr) && State == map[]
    {
      contexts, State, Repr := map[], map[], {this};
    }

    method Create(runId: RunId) returns (context: CancellationContext)
      requires Valid()
      modifies this
      ensures Valid() && fresh(Repr - old(Repr))
      ensures State == C.Create(old(State), runId)
      ensures runId in contexts && context == contexts[runId]
    {
      Remove(runId);
      context := new CancellationContext(runId);
      contexts := contexts[runId := context];
      State := C.Create(State, runId);
      Repr := Repr + {context};
    }

    method Remove(runId: RunId)
      requires Valid()
      modifies this
      ensures Valid() && Repr == old(Repr)
      ensures State == C.Remove(old(State), runId)
      ensures contexts == old(contexts) - {runId}
    {
      contexts := contexts - {runId};
      State := C.Remove(State, runId);
    }

    method Cancel(runId: RunId, reason: Option<string>) returns (found: bool, aborted: Option<string>)
      requires Valid()
      modifies Repr
      ensures Valid() && Repr == old(Repr)
      ensures State == C.Cancel(old(State), runId, reason)
      ensures found <==> runId in old(contexts)
      ensures aborted == C.AbortEvent(old(State), runId, reason)
    {
      if runId !in contexts {
        return false, None;
      }
      aborted := contexts[runId].Cancel(reason);
      State := C.Cancel(State, runId, reason);
      found := true;
    }
  }
}

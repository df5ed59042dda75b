/** Hook dispatch (src/engine/hooks.rs). A slot is `()`, a closure, or a chain of
    two slots; closures are identified by number and log what they receive. */
module Hooks {
  datatype Hook = Nothing | Closure(id: nat) | HookChain(first: Hook, second: Hook)

  datatype Firing<E> = Firing(id: nat, event: E)

  class HookLog<E> {
    var fired: seq<Firing<E>>

    constructor ()
      ensures fired == []
    {
      fired := [];
    }

    method Call(hook: Hook, event: E)
      modifies this
      ensures fired == old(fired) + Fire(hook, event)
      decreases hook
    {
      match hook {
        case Nothing =>
        case Closure(id) => fired := fired + [Firing(id, event)];
        case HookChain(first, second) =>
          Call(first, event);
          Call(second, event);
      }
    }
  }

  function Fire<E>(hook: Hook, event: E): seq<Firing<E>> {
    match hook
    case Nothing => []
    case Closure(id) => [Firing(id, event)]
    case HookChain(first, second) => Fire(first, event) + Fire(second, event)
  }

  /** `chain_before_attempt` and its twins, applied once per registration. */
  function Registered(hooks: seq<Hook>): Hook {
    if hooks == [] then Nothing
    else HookChain(Registered(hooks[..|hooks| - 1]), hooks[|hooks| - 1])
  }

  function InOrder<E>(ids: seq<nat>, event: E): seq<Firing<E>> {
    seq(|ids|, i requires 0 <= i < |ids| => Firing(ids[i], event))
  }

  /** Closures registered one by one fire as a flat list in registration order. */
  lemma {:induction false} RegistrationOrder<E>(ids: seq<nat>, event: E)
    ensures Fire(Registered(Closures(ids)), event) == InOrder(ids, event)
  {
    if ids != [] {
      var n := |ids| - 1;
      assert Closures(ids)[..n] == Closures(ids[..n]);
      RegistrationOrder(ids[..n], event);
      assert InOrder(ids, event) == InOrder(ids[..n], event) + [Firing(ids[n], event)];
    }
  }

  function Closures(ids: seq<nat>): seq<Hook> {
    seq(|ids|, i requires 0 <= i < |ids| => Closure(ids[i]))
  }

  // ----- what each registered closure receives over a run -----

  function Dispatch<E>(hook: Hook, events: seq<E>): seq<Firing<E>> {
    if events == [] then [] else Dispatch(hook, events[..|events| - 1]) + Fire(hook, events[|events| - 1])
  }

  function Received<E>(fired: seq<Firing<E>>, id: nat): seq<E> {
    if fired == [] then []
    else Received(fired[..|fired| - 1], id) + if fired[|fired| - 1].id == id then [fired[|fired| - 1].event] else []
  }

  lemma {:induction false} ReceivedInParts<E>(a: seq<Firing<E>>, b: seq<Firing<E>>, id: nat)
    ensures Received(a + b, id) == Received(a, id) + Received(b, id)
  {
    if b == [] {
      assert a + b == a;
    } else {
      assert (a + b)[..|a + b| - 1] == a + b[..|b| - 1];
      ReceivedInParts(a, b[..|b| - 1], id);
    }
  }

  predicate Distinct(ids: seq<nat>) {
    forall i, j :: 0 <= i < j < |ids| ==> ids[i] != ids[j]
  }

  lemma {:induction false} ReceivesOnce<E>(ids: seq<nat>, id: nat, event: E)
    requires Distinct(ids)
    ensures Received(InOrder(ids, event), id) == if id in ids then [event] else []
  {
    if ids != [] {
      var n := |ids| - 1;
      ReceivesOnce(ids[..n], id, event);
      assert InOrder(ids, event)[..n] == InOrder(ids[..n], event);
      assert ids == ids[..n] + [ids[n]];
    }
  }

  lemma RegisteredReceivesOnce<E>(ids: seq<nat>, id: nat, event: E)
    requires Distinct(ids)
    ensures Received(Fire(Registered(Closures(ids)), event), id) == if id in ids then [event] else []
  {
    RegistrationOrder(ids, event);
    ReceivesOnce(ids, id, event);
  }

  lemma DispatchMore<E>(hook: Hook, events: seq<E>, e: E)
    ensures Dispatch(hook, events + [e]) == Dispatch(hook, events) + Fire(hook, e)
  {
    assert (events + [e])[..|events|] == events;
  }

  /** The closure has received exactly these events, in order. */
  ghost predicate ReceivesAll<E>(hook: Hook, id: nat, events: seq<E>) {
    Received(Dispatch(hook, events), id) == events
  }

  lemma ReceivesOneMore<E>(hook: Hook, id: nat, events: seq<E>, e: E)
    requires ReceivesAll(hook, id, events) && Received(Fire(hook, e), id) == [e]
    ensures ReceivesAll(hook, id, events + [e])
  {
    DispatchMore(hook, events, e);
    ReceivedInParts(Dispatch(hook, events), Fire(hook, e), id);
  }

  lemma InitAndLast<E>(events: seq<E>) returns (init: seq<E>, last: E)
    requires events != []
    ensures events == init + [last] && |init| < |events|
  {
    init, last := events[..|events| - 1], events[|events| - 1];
  }

  /** Over a whole run every registered closure receives every event of its hook
      point exactly once, in order, whatever else is registered beside it. */
  lemma {:induction false} EveryHookSeesEveryEvent<E>(ids: seq<nat>, id: nat, hook: Hook, events: seq<E>)
    requires Distinct(ids) && id in ids && hook == Registered(Closures(ids))
    ensures ReceivesAll(hook, id, events)
    decreases |events|
  {
    if events != [] {
      var init, last := InitAndLast(events);
      EveryHookSeesEveryEvent(ids, id, hook, init);
      RegisteredReceivesOnce(ids, id, last);
      ReceivesOneMore(hook, id, init, last);
    }
  }
}

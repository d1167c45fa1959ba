/**
  The DOM-ready gate: `onDOMContentLoaded(callback)` runs the callback at once
  when the document has finished parsing, and otherwise appends it to a
  module-level array that a lazily added DOMContentLoaded listener runs front
  to back.

  The browser leaves the loading stage in two steps: `document.readyState`
  becomes 'interactive' first, deferred scripts and other tasks run, and only
  then is DOMContentLoaded dispatched. A callback registered in between runs
  at once, before the callbacks still waiting in the array.

  Callbacks are identified by number; running one is recorded in the log
  `ran`. What a callback itself does is not part of this model, except
  whether it throws: the listener's loop has no try/catch, so a callback that
  throws ends the loop and the callbacks queued after it never run.
 */
module DomReady {

  /** Identifies one callback passed to onDOMContentLoaded. */
  type CallbackId = nat

  /** The values of `document.readyState`. */
  datatype ReadyState = Loading | Interactive | Complete

  /**
    The gate as a value: the document's readiness, whether DOMContentLoaded
    has been dispatched, the module-level callback array, how many
    DOMContentLoaded listeners the module has added to the document, and
    every callback run so far, in the order they ran.
   */
  datatype Gate = Gate(readyState: ReadyState, fired: bool, queue: seq<CallbackId>, listeners: nat, ran: seq<CallbackId>)

  /**
    The gate when the module is first evaluated: nothing queued, no listener,
    nothing run, and no DOMContentLoaded seen by the module.
   */
  function Initial(readyState: ReadyState): Gate
  {
    Gate(readyState, false, [], 0, [])
  }

  /**
    The gate's invariant: exactly one listener while something is queued, none
    before, and DOMContentLoaded only ever after the loading stage.
   */
  predicate Valid(g: Gate)
  {
    && g.listeners == (if g.queue == [] then 0 else 1)
    && (g.fired ==> g.readyState != Loading)
  }

  /**
    `onDOMContentLoaded(cb)`. While loading, a listener is added only when the
    array is still empty, and the callback goes to the array's end; otherwise
    the callback runs on the spot.
   */
  function Register(g: Gate, cb: CallbackId): (r: Gate)
    ensures Valid(g) ==> Valid(r)
    ensures r.readyState == g.readyState && r.fired == g.fired
    ensures g.readyState == Loading ==> r.queue == g.queue + [cb] && r.ran == g.ran
    ensures g.readyState != Loading ==> r.ran == g.ran + [cb] && r.queue == g.queue && r.listeners == g.listeners
  {
    if g.readyState == Loading then
      g.(listeners := if g.queue == [] then g.listeners + 1 else g.listeners,
         queue := g.queue + [cb])
    else
      g.(ran := g.ran + [cb])
  }

  /**
    The callbacks the listener's loop calls, front to back, when those in
    `throwing` throw: every one up to and including the first that throws.
   */
  function RunListener(queue: seq<CallbackId>, throwing: set<CallbackId>): seq<CallbackId>
    decreases |queue|
  {
    if queue == [] then []
    else if queue[0] in throwing then [queue[0]]
    else [queue[0]] + RunListener(queue[1..], throwing)
  }

  /**
    The loop runs a prefix of the array: all of it, or up to a callback that
    throws.
   */
  lemma {:induction false} RunListenerPrefix(queue: seq<CallbackId>, throwing: set<CallbackId>)
    ensures RunListener(queue, throwing) <= queue
    ensures var run := RunListener(queue, throwing);
            run == queue || (run != [] && run[|run| - 1] in throwing)
    decreases |queue|
  {
    if queue != [] && queue[0] !in throwing {
      RunListenerPrefix(queue[1..], throwing);
    }
  }

  /**
    The listener's `for ... of` loop over the array: it calls the callbacks
    front to back, and the first that throws ends the loop.
   */
  method ListenerLoop(queue: seq<CallbackId>, throwing: set<CallbackId>) returns (run: seq<CallbackId>)
    ensures run == RunListener(queue, throwing)
  {
    run := [];
    var rest := queue;
    while rest != []
      invariant run + RunListener(rest, throwing) == RunListener(queue, throwing)
      decreases |rest|
    {
      run := run + [rest[0]];
      if rest[0] in throwing {
        return;
      }
      rest := rest[1..];
    }
  }

  /** When no queued callback throws, the loop runs the whole array. */
  lemma {:induction false} RunsAllWithoutThrow(queue: seq<CallbackId>, throwing: set<CallbackId>)
    requires forall i :: 0 <= i < |queue| ==> queue[i] !in throwing
    ensures RunListener(queue, throwing) == queue
    decreases |queue|
  {
    if queue != [] {
      RunsAllWithoutThrow(queue[1..], throwing);
    }
  }

  /**
    When the callback at index `k` is the first in the array to throw, the
    loop runs exactly the callbacks up to it, and none after it.
   */
  lemma {:induction false} StopsAtFirstThrow(queue: seq<CallbackId>, throwing: set<CallbackId>, k: nat)
    requires k < |queue| && queue[k] in throwing
    requires forall j :: 0 <= j < k ==> queue[j] !in throwing
    ensures RunListener(queue, throwing) == queue[..k + 1]
    decreases k
  {
    if k > 0 {
      StopsAtFirstThrow(queue[1..], throwing, k - 1);
      assert [queue[0]] + queue[1..][..k] == queue[..k + 1];
    }
  }

  /**
    The document finishes parsing: `document.readyState` becomes
    'interactive'. DOMContentLoaded is not dispatched yet, so nothing runs.
   */
  function FinishParsing(g: Gate): (r: Gate)
    requires g.readyState == Loading && Valid(g)
    ensures r.readyState == Interactive && !r.fired && Valid(r)
    ensures r.queue == g.queue && r.listeners == g.listeners && r.ran == g.ran
  {
    g.(readyState := Interactive)
  }

  /**
    The document dispatches DOMContentLoaded, once, while 'interactive'; the
    listener, when one was added, runs the array in order until a callback
    throws.
   */
  function Dispatch(g: Gate, throwing: set<CallbackId>): (r: Gate)
    requires g.readyState == Interactive && !g.fired && Valid(g)
    ensures r.readyState == Interactive && r.fired && Valid(r)
    ensures r.queue == g.queue && r.listeners == g.listeners
    ensures r.ran == g.ran + RunListener(g.queue, throwing)
  {
    g.(fired := true,
       ran := if g.listeners > 0 then g.ran + RunListener(g.queue, throwing) else g.ran)
  }

  /** Registers the callbacks `cbs` one after another, `cbs[0]` first. */
  function RegisterAll(g: Gate, cbs: seq<CallbackId>): Gate
    decreases |cbs|
  {
    if cbs == [] then g else RegisterAll(Register(g, cbs[0]), cbs[1..])
  }

  /**
    While loading, registrations only append to the array, in order; nothing
    runs, and a listener is added exactly when the array goes from empty to
    non-empty.
   */
  lemma {:induction false} RegisterAllWhileLoading(g: Gate, cbs: seq<CallbackId>)
    requires g.readyState == Loading
    ensures RegisterAll(g, cbs).readyState == Loading
    ensures RegisterAll(g, cbs).fired == g.fired
    ensures RegisterAll(g, cbs).queue == g.queue + cbs
    ensures RegisterAll(g, cbs).ran == g.ran
    ensures RegisterAll(g, cbs).listeners
            == if g.queue == [] && cbs != [] then g.listeners + 1 else g.listeners
    decreases |cbs|
  {
    if cbs != [] {
      var g1 := Register(g, cbs[0]);
      RegisterAllWhileLoading(g1, cbs[1..]);
      assert g.queue + cbs == g1.queue + cbs[1..];
    }
  }

  /**
    Once the document is past loading, every registration runs its callback
    immediately and in order; the array and the listeners stay as they are.
   */
  lemma {:induction false} RegisterAllWhenReady(g: Gate, cbs: seq<CallbackId>)
    requires g.readyState != Loading
    ensures RegisterAll(g, cbs).readyState == g.readyState
    ensures RegisterAll(g, cbs).fired == g.fired
    ensures RegisterAll(g, cbs).ran == g.ran + cbs
    ensures RegisterAll(g, cbs).queue == g.queue
    ensures RegisterAll(g, cbs).listeners == g.listeners
    decreases |cbs|
  {
    if cbs != [] {
      var g1 := Register(g, cbs[0]);
      RegisterAllWhenReady(g1, cbs[1..]);
      assert g.ran + cbs == g1.ran + cbs[1..];
    }
  }

  /**
    A whole page load: `before` is registered while the document is loading,
    parsing finishes, `between` is registered before DOMContentLoaded is
    dispatched, the event fires, and `after` is registered later. At most one
    listener is ever added. Each callback of `between` and `after` runs at its
    registration, so `between` runs ahead of the queued `before`, which runs
    in order until the first callback that throws. When none of `before`
    throws, every callback runs exactly once, in registration order within
    each group.
   */
  lemma PageLoad(before: seq<CallbackId>, between: seq<CallbackId>, throwing: set<CallbackId>, after: seq<CallbackId>)
    ensures var loading := RegisterAll(Initial(Loading), before);
            loading.readyState == Loading && Valid(loading)
            && loading.ran == [] && loading.queue == before
    ensures var loading := RegisterAll(Initial(Loading), before);
            var parsed := RegisterAll(FinishParsing(loading), between);
            && parsed.readyState == Interactive && !parsed.fired && Valid(parsed)
            && parsed.ran == between
            && var done := RegisterAll(Dispatch(parsed, throwing), after);
               && done.ran == between + RunListener(before, throwing) + after
               && done.listeners == (if before == [] then 0 else 1)
               && ((forall i :: 0 <= i < |before| ==> before[i] !in throwing) ==>
                     done.ran == between + before + after
                     && multiset(done.ran) == multiset(before) + multiset(between) + multiset(after))
  {
    var loading := RegisterAll(Initial(Loading), before);
    RegisterAllWhileLoading(Initial(Loading), before);
    var parsed := RegisterAll(FinishParsing(loading), between);
    RegisterAllWhenReady(FinishParsing(loading), between);
    RegisterAllWhenReady(Dispatch(parsed, throwing), after);
    if forall i :: 0 <= i < |before| ==> before[i] !in throwing {
      RunsAllWithoutThrow(before, throwing);
    }
  }

  /**
    The gate as the module keeps it: `callbacks` is the module-level array,
    `readyState` and `listeners` stand for the document, `ran` for the
    callbacks' effects.
   */
  class ReadyGate {
    var readyState: ReadyState
    var fired: bool
    var callbacks: seq<CallbackId>
    var listeners: nat
    var ran: seq<CallbackId>

    function State(): Gate
      reads this
    {
      Gate(readyState, fired, callbacks, listeners, ran)
    }

    constructor (readyState: ReadyState)
      ensures State() == Initial(readyState)
    {
      this.readyState := readyState;
      fired := false;
      callbacks := [];
      listeners := 0;
      ran := [];
    }

    /** `onDOMContentLoaded(callback)` */
    method OnDOMContentLoaded(callback: CallbackId)
      requires Valid(State())
      modifies this
      ensures Valid(State())
      ensures State() == Register(old(State()), callback)
    {
      if readyState == Loading {
        if |callbacks| == 0 {
          listeners := listeners + 1;
        }
        callbacks := callbacks + [callback];
      } else {
        ran := ran + [callback];
      }
    }

    /** The document finishes parsing and reaches 'interactive'. */
    method BecomeInteractive()
      requires readyState == Loading && Valid(State())
      modifies this
      ensures Valid(State())
      ensures State() == FinishParsing(old(State()))
    {
      readyState := Interactive;
    }

    /**
      The document dispatches DOMContentLoaded; the listener's `for ... of`
      loop runs the array front to back, and a callback in `throwing` ends
      the listener with its exception.
     */
    method FireDOMContentLoaded(throwing: set<CallbackId>)
      requires readyState == Interactive && !fired && Valid(State())
      modifies this
      ensures Valid(State())
      ensures State() == Dispatch(old(State()), throwing)
    {
      fired := true;
      if listeners > 0 {
        var run := ListenerLoop(callbacks, throwing);
        ran := ran + run;
      }
    }
  }
}

/**
 Draining one connection while calls, other drains, disconnects and connects
 interleave.  Every step of a task between two `await`s is one atomic step.
 */
module Drain {
  import opened Prelude
  import opened Lifecycle

  // ---------------------------------------------------------------------
  // The connection's fields
  // ---------------------------------------------------------------------

  /** `event` names the latest drain event; `fired` the events that are set. */
  datatype Link = Link(state: Life, outbound: bool, inFlight: int, event: Option<nat>, fired: set<nat>, nextEvent: nat)

  /** `_check_callable` passes. */
  predicate Callable(l: Link) {
    l.state != Draining && l.outbound
  }

  function BeginCall(l: Link): Link {
    l.(inFlight := l.inFlight + 1)
  }

  function EndCall(l: Link): Link {
    var n := l.inFlight - 1;
    l.(inFlight := n, fired := if n == 0 && l.event.Some? then l.fired + {l.event.value} else l.fired)
  }

  /** The drain holds the lock and the state is CONNECTED or DRAINING. */
  function BeginDrain(l: Link): Link {
    if l.inFlight > 0 then l.(state := Draining, event := Some(l.nextEvent), nextEvent := l.nextEvent + 1)
    else l.(state := Draining)
  }

  /** `disconnect()` after its outbound client closed. */
  function Closed(l: Link): Link {
    l.(state := Disconnected, outbound := false)
  }

  class MCPConnection {
    var state: Life
    var outbound: bool
    var inFlight: int
    var drainEvent: Option<nat>
    var fired: set<nat>
    var nextEvent: nat

    function View(): Link
      reads this
    {
      Link(state, outbound, inFlight, drainEvent, fired, nextEvent)
    }

    constructor ()
      ensures View() == Link(Disconnected, false, 0, None, {}, 0)
    {
      state, outbound, inFlight, drainEvent, fired, nextEvent := Disconnected, false, 0, None, {}, 0;
    }

    /** A request up to its first suspension: refused, or counted as in flight. */
    method StartCall() returns (ok: bool)
      modifies this
      ensures ok == Callable(old(View()))
      ensures View() == if ok then BeginCall(old(View())) else old(View())
    {
      if state == Draining || !outbound {
        return false;
      }
      inFlight := inFlight + 1;
      ok := true;
    }

    /** The `finally` of a dispatch, however its call ended. */
    method FinishCall()
      modifies this
      ensures View() == EndCall(old(View()))
    {
      inFlight := inFlight - 1;
      if inFlight == 0 && drainEvent.Some? {
        fired := fired + {drainEvent.value};
      }
    }

    /** A drain after acquiring the drain lock; `wait` names the event it must wait for. */
    method StartDrain() returns (skipped: bool, wait: Option<nat>)
      modifies this
      ensures skipped == (old(state) !in {Connected, Draining})
      ensures View() == if skipped then old(View()) else BeginDrain(old(View()))
      ensures wait == if skipped || old(inFlight) <= 0 then None else Some(old(nextEvent))
      ensures wait.Some? ==> drainEvent == wait
    {
      if state != Connected && state != Draining {
        return true, None;
      }
      skipped, wait := false, None;
      state := Draining;
      if inFlight > 0 {
        drainEvent, nextEvent := Some(nextEvent), nextEvent + 1;
        wait := drainEvent;
      }
    }

    method FinishDisconnect()
      modifies this
      ensures View() == Closed(old(View()))
    {
      outbound := false;
      state := Disconnected;
    }
  }

  // ---------------------------------------------------------------------
  // All tasks around one connection
  // ---------------------------------------------------------------------

  datatype Mode = Skipped | Drained | TimedOut

  /** Where a `drain_and_disconnect` task is; `left` is what was in flight when it disconnected. */
  datatype DrainTask = Queued | Waiting(event: nat) | Closing(mode: Mode) | Done(mode: Mode, left: int) | Cancelled

  /** `calls` are the dispatches begun and not finished, `lock` the drain holding the
      lock, `direct` the plain `disconnect()` calls and `connecting` the connects under way. */
  datatype World = World(link: Link, calls: set<nat>, drains: map<nat, DrainTask>, lock: Option<nat>,
                         direct: set<nat>, connecting: nat)

  datatype Step =
    | CallStart(call: nat) | CallEnd(call: nat)
    | DrainRequest(task: nat) | DrainAcquire(task: nat) | DrainWake(task: nat) | DrainTimeout(task: nat)
    | DrainCancel(task: nat) | DrainClosed(task: nat)
    | DisconnectBegin(task: nat) | DisconnectEnd(task: nat)
    | ConnectBegin | ConnectUp | ConnectDown(state: Life)  // ERROR or AUTH_REQUIRED
    | Hook(state: Life)                                    // the supervisor's reaction to a failed connect

  predicate Holds(d: DrainTask) {
    d.Waiting? || d.Closing?
  }

  predicate Enabled(w: World, s: Step) {
    match s
    case CallStart(c) => c !in w.calls && Callable(w.link)
    case CallEnd(c) => c in w.calls
    case DrainRequest(t) => t !in w.drains
    case DrainAcquire(t) => t in w.drains && w.drains[t].Queued? && w.lock.None?
    case DrainWake(t) => t in w.drains && w.drains[t].Waiting? && w.drains[t].event in w.link.fired
    case DrainTimeout(t) => t in w.drains && w.drains[t].Waiting?
    case DrainCancel(t) => t in w.drains && (w.drains[t].Queued? || Holds(w.drains[t]))
    case DrainClosed(t) => t in w.drains && w.drains[t].Closing?
    case DisconnectBegin(d) => d !in w.direct
    case DisconnectEnd(d) => d in w.direct
    case ConnectBegin => true
    case ConnectUp => w.connecting > 0
    case ConnectDown(x) => w.connecting > 0 && x in {Error, AuthRequired}
    case Hook(x) => w.link.state in {Error, CircuitOpen, Connecting} && x in {Reconnecting, CircuitOpen, Failed}
  }

  /** The drain reaches `disconnect()`: with no outbound client there is nothing to await. */
  function Disconnect(w: World, t: nat, mode: Mode): World {
    if w.link.outbound then w.(drains := w.drains[t := Closing(mode)]) else Finished(w, t, mode)
  }

  function Finished(w: World, t: nat, mode: Mode): World {
    w.(link := Closed(w.link), drains := w.drains[t := Done(mode, w.link.inFlight)], lock := None)
  }

  function Acquire(w: World, t: nat): World {
    var w1 := w.(lock := Some(t));
    if w.link.state !in {Connected, Draining} then Disconnect(w1, t, Skipped)
    else
      var w2 := w1.(link := BeginDrain(w.link));
      if w.link.inFlight > 0 then w2.(drains := w.drains[t := Waiting(w.link.nextEvent)])
      else Disconnect(w2, t, Drained)
  }

  function Apply(w: World, s: Step): World
    requires Enabled(w, s)
  {
    match s
    case CallStart(c) => w.(link := BeginCall(w.link), calls := w.calls + {c})
    case CallEnd(c) => w.(link := EndCall(w.link), calls := w.calls - {c})
    case DrainRequest(t) => w.(drains := w.drains[t := Queued])
    case DrainAcquire(t) => Acquire(w, t)
    case DrainWake(t) => Disconnect(w, t, Drained)
    case DrainTimeout(t) => Disconnect(w, t, TimedOut)
    case DrainCancel(t) => w.(drains := w.drains[t := Cancelled], lock := if Holds(w.drains[t]) then None else w.lock)
    case DrainClosed(t) => Finished(w, t, w.drains[t].mode)
    case DisconnectBegin(d) => if w.link.outbound then w.(direct := w.direct + {d}) else w.(link := Closed(w.link))
    case DisconnectEnd(d) => w.(link := Closed(w.link), direct := w.direct - {d})
    case ConnectBegin =>
      if w.link.state == Connected then w else w.(link := w.link.(state := Connecting), connecting := w.connecting + 1)
    case ConnectUp => w.(link := w.link.(state := Connected, outbound := true), connecting := w.connecting - 1)
    case ConnectDown(x) => w.(link := w.link.(state := x), connecting := w.connecting - 1)
    case Hook(x) => w.(link := w.link.(state := x))
  }

  const START := World(Link(Disconnected, false, 0, None, {}, 0), {}, map[], None, {}, 0)

  ghost predicate IsRun(ws: seq<World>, steps: seq<Step>) {
    && |ws| == |steps| + 1 && ws[0] == START
    && forall i :: 0 <= i < |steps| ==> Taken(ws, steps, i)
  }

  ghost predicate Taken(ws: seq<World>, steps: seq<Step>, i: nat)
    requires i < |steps| < |ws|
  {
    Enabled(ws[i], steps[i]) && ws[i + 1] == Apply(ws[i], steps[i])
  }

  // ---------------------------------------------------------------------
  // What every interleaving keeps
  // ---------------------------------------------------------------------

  ghost predicate EventsKnown(l: Link) {
    (l.event.Some? ==> l.event.value < l.nextEvent) && forall e :: e in l.fired ==> e < l.nextEvent
  }

  /** A waiting drain looks at the current event, which is set once nothing is in flight. */
  ghost predicate Wakeable(l: Link, d: DrainTask) {
    d.Waiting? ==> l.event == Some(d.event) && (l.inFlight == 0 ==> d.event in l.fired)
  }

  ghost predicate Inv(w: World) {
    && w.link.inFlight == |w.calls| && EventsKnown(w.link)
    && (w.lock.Some? ==> w.lock.value in w.drains)
    && (forall t :: t in w.drains ==> (Holds(w.drains[t]) <==> w.lock == Some(t)))
    && (forall t :: t in w.drains ==> Wakeable(w.link, w.drains[t]))
  }

  lemma StepCounts(w: World, s: Step)
    requires Inv(w) && Enabled(w, s)
    ensures Apply(w, s).link.inFlight == |Apply(w, s).calls| && EventsKnown(Apply(w, s).link)
  {
  }

  lemma StepLocks(w: World, s: Step, t: nat)
    requires Inv(w) && Enabled(w, s)
    ensures var w' := Apply(w, s);
            && (w'.lock.Some? ==> w'.lock.value in w'.drains)
            && (t in w'.drains ==> (Holds(w'.drains[t]) <==> w'.lock == Some(t)))
  {
    assert t in w.drains ==> (Holds(w.drains[t]) <==> w.lock == Some(t));
  }

  lemma StepWakes(w: World, s: Step, t: nat)
    requires Inv(w) && Enabled(w, s) && t in Apply(w, s).drains
    ensures Wakeable(Apply(w, s).link, Apply(w, s).drains[t])
  {
    if t in w.drains {
      assert Wakeable(w.link, w.drains[t]) && (Holds(w.drains[t]) <==> w.lock == Some(t));
    }
  }

  lemma StepKeepsInv(w: World, s: Step)
    requires Inv(w) && Enabled(w, s)
    ensures Inv(Apply(w, s))
  {
    var w' := Apply(w, s);
    StepCounts(w, s);
    StepLocks(w, s, 0);
    forall t | t in w'.drains ensures (Holds(w'.drains[t]) <==> w'.lock == Some(t)) && Wakeable(w'.link, w'.drains[t]) {
      StepLocks(w, s, t);
      StepWakes(w, s, t);
    }
  }

  lemma {:induction false} RunKeepsInv(ws: seq<World>, steps: seq<Step>, i: nat)
    requires IsRun(ws, steps) && i < |ws|
    ensures Inv(ws[i])
  {
    if i > 0 {
      RunKeepsInv(ws, steps, i - 1);
      assert Taken(ws, steps, i - 1);
      StepKeepsInv(ws[i - 1], steps[i - 1]);
    }
  }

  /** In every interleaving whatsoever: the counter equals the unfinished dispatches, at most one
      drain is past the lock, and a waiting drain with nothing in flight can always wake. */
  lemma NoLostWakeup(ws: seq<World>, steps: seq<Step>, i: nat, t: nat)
    requires IsRun(ws, steps) && i < |ws| && t in ws[i].drains && Holds(ws[i].drains[t])
    ensures ws[i].link.inFlight == |ws[i].calls|
    ensures forall u :: u in ws[i].drains && u != t ==> !Holds(ws[i].drains[u])
    ensures ws[i].drains[t].Waiting? && ws[i].calls == {} ==> Enabled(ws[i], DrainWake(t))
  {
    RunKeepsInv(ws, steps, i);
  }

  /** A drain that gets the lock waits exactly when the connection is CONNECTED or still DRAINING from
      before and calls are in flight; in any other state it disconnects without waiting. */
  lemma AcquiringWaitsIff(w: World, t: nat)
    requires Inv(w) && Enabled(w, DrainAcquire(t))
    ensures var d := Apply(w, DrainAcquire(t)).drains[t];
            && (d.Waiting? <==> (w.link.state == Connected || w.link.state == Draining) && w.calls != {})
            && (d == Closing(Skipped) || d == Done(Skipped, w.link.inFlight) <==>
                  w.link.state != Connected && w.link.state != Draining)
  {
    if w.calls == {} {
      assert w.link.inFlight == 0;
    }
  }

  // ---------------------------------------------------------------------
  // Drains that no connect disturbs
  // ---------------------------------------------------------------------

  predicate ConnectSide(s: Step) {
    s.ConnectBegin? || s.ConnectUp? || s.ConnectDown?
  }

  /** A drain between its move to DRAINING and its end. */
  predicate Active(d: DrainTask) {
    d.Waiting? || (d.Closing? && d.mode != Skipped)
  }

  ghost predicate DrainActive(w: World) {
    exists t :: t in w.drains && Active(w.drains[t])
  }

  /** A step of a connect after which a request is accepted. */
  predicate Reopens(w: World, s: Step)
    requires Enabled(w, s)
  {
    ConnectSide(s) && Callable(Apply(w, s).link)
  }

  /** No connect reopens the connection while a drain is active. */
  ghost predicate Undisturbed(ws: seq<World>, steps: seq<Step>) {
    IsRun(ws, steps) && forall i :: 0 <= i < |steps| ==> KeepsShut(ws, steps, i)
  }

  ghost predicate KeepsShut(ws: seq<World>, steps: seq<Step>, i: nat)
    requires i < |steps| < |ws|
  {
    DrainActive(ws[i]) && Enabled(ws[i], steps[i]) ==> !Reopens(ws[i], steps[i])
  }

  ghost predicate Clean(l: Link, d: DrainTask) {
    && (Active(d) ==> !Callable(l))
    && (d.Waiting? && d.event in l.fired ==> l.inFlight == 0)
    && (d == Closing(Drained) ==> l.inFlight == 0)
    && (d.Done? && d.mode == Drained ==> d.left == 0)
  }

  ghost predicate CleanWorld(w: World) {
    Inv(w) && forall t :: t in w.drains ==> Clean(w.link, w.drains[t])
  }

  lemma UndisturbedStep(w: World, s: Step)
    requires CleanWorld(w) && Enabled(w, s) && (DrainActive(w) ==> !Reopens(w, s))
    ensures CleanWorld(Apply(w, s))
  {
    StepKeepsInv(w, s);
    var w' := Apply(w, s);
    forall t | t in w'.drains ensures Clean(w'.link, w'.drains[t]) {
      UndisturbedAt(w, s, t);
    }
  }

  /** One drain's view of a step; another drain's step does not touch it once it is active. */
  lemma UndisturbedAt(w: World, s: Step, t: nat)
    requires Inv(w) && Enabled(w, s) && t in Apply(w, s).drains
    requires t in w.drains ==> Clean(w.link, w.drains[t])
    requires t in w.drains && Active(w.drains[t]) ==> !Reopens(w, s)
    ensures Clean(Apply(w, s).link, Apply(w, s).drains[t])
  {
    if t in w.drains && !s.DrainRequest? && Holds(w.drains[t]) {
      assert w.lock == Some(t);
    }
  }

  lemma {:induction false} UndisturbedRun(ws: seq<World>, steps: seq<Step>, i: nat)
    requires Undisturbed(ws, steps) && i < |ws|
    ensures CleanWorld(ws[i])
  {
    if i > 0 {
      UndisturbedRun(ws, steps, i - 1);
      assert Taken(ws, steps, i - 1) && KeepsShut(ws, steps, i - 1);
      UndisturbedStep(ws[i - 1], steps[i - 1]);
    }
  }

  /** A drain that did not time out disconnects with nothing in flight, from the moment it stops waiting. */
  lemma DrainLosesNothing(ws: seq<World>, steps: seq<Step>, i: nat, t: nat)
    requires Undisturbed(ws, steps) && i < |ws| && t in ws[i].drains
    ensures ws[i].drains[t] == Closing(Drained) ==> ws[i].calls == {}
    ensures ws[i].drains[t].Done? && ws[i].drains[t].mode == Drained ==> ws[i].drains[t].left == 0
  {
    UndisturbedRun(ws, steps, i);
  }

  /** While a drain is active the unfinished dispatches only become fewer: none starts. */
  lemma {:induction false} NoDispatchWhileDraining(ws: seq<World>, steps: seq<Step>, i: nat, j: nat)
    requires Undisturbed(ws, steps) && i <= j < |ws|
    requires forall k :: i <= k < j ==> DrainActive(ws[k])
    ensures ws[j].calls <= ws[i].calls
  {
    if i < j {
      NoDispatchWhileDraining(ws, steps, i, j - 1);
      UndisturbedRun(ws, steps, j - 1);
      assert Taken(ws, steps, j - 1);
      SealedStep(ws[j - 1], steps[j - 1]);
    }
  }

  lemma SealedStep(w: World, s: Step)
    requires CleanWorld(w) && DrainActive(w) && Enabled(w, s)
    ensures Apply(w, s).calls <= w.calls
  {
    var t :| t in w.drains && Active(w.drains[t]);
    assert Clean(w.link, w.drains[t]);
  }

  /** While a drain is active on an open connection, the steps after which a request
      would be accepted are precisely those of a connect. */
  lemma OnlyConnectReopens(w: World, s: Step, t: nat)
    requires CleanWorld(w) && Enabled(w, s) && t in w.drains && Active(w.drains[t]) && w.link.outbound
    ensures Callable(Apply(w, s).link) <==> ConnectSide(s)
  {
    assert Clean(w.link, w.drains[t]);
  }

  // ---------------------------------------------------------------------
  // Exactly when a drain can lose a call
  // ---------------------------------------------------------------------

  /** The steps can be taken one after the other, none of them connect-side. */
  ghost predicate Leads(w: World, steps: seq<Step>)
    decreases |steps|
  {
    steps == [] ||
    (!ConnectSide(steps[0]) && Enabled(w, steps[0]) && Leads(Apply(w, steps[0]), steps[1..]))
  }

  ghost function After(w: World, steps: seq<Step>): World
    requires Leads(w, steps)
    decreases |steps|
  {
    if steps == [] then w else After(Apply(w, steps[0]), steps[1..])
  }

  /** The drain did not time out, and yet it disconnects, or has disconnected, calls in flight. */
  ghost predicate Lost(w: World, t: nat) {
    t in w.drains &&
    match w.drains[t]
    case Closing(mode) => mode == Drained && w.calls != {}
    case Done(mode, left) => mode == Drained && left != 0
    case _ => false
  }

  ghost predicate CanLose(w: World, t: nat) {
    exists steps :: Leads(w, steps) && Lost(After(w, steps), t)
  }

  lemma LosesBy(w: World, s: Step, t: nat)
    requires Enabled(w, s) && !ConnectSide(s) && CanLose(Apply(w, s), t)
    ensures CanLose(w, t)
  {
    var steps :| Leads(Apply(w, s), steps) && Lost(After(Apply(w, s), steps), t);
    var more := [s] + steps;
    assert more[1..] == steps;
    assert Leads(w, more) && After(w, more) == After(Apply(w, s), steps);
  }

  lemma LostNow(w: World, t: nat)
    requires Lost(w, t)
    ensures CanLose(w, t)
  {
    assert Leads(w, []) && After(w, []) == w;
  }

  /** A drain that was promised an empty connection: it waits, or it disconnects after waiting. */
  predicate Promised(d: DrainTask) {
    d.Waiting? || d == Closing(Drained)
  }

  /** Once requests are accepted again a waiting drain can lose one, whatever is in flight: the
      calls end, the event is set, a new request slips in, and the drain wakes. */
  lemma {:induction false} WaitingDrainLosesCall(w: World, t: nat)
    requires Inv(w) && Callable(w.link) && t in w.drains && w.drains[t].Waiting?
    ensures CanLose(w, t)
    decreases |w.calls|
  {
    if w.calls == {} {
      var w1 := Apply(w, CallStart(0));
      assert Wakeable(w.link, w.drains[t]);
      assert Enabled(w1, DrainWake(t));
      var w2 := Apply(w1, DrainWake(t));
      assert 0 in w2.calls;
      LostNow(w2, t);
      LosesBy(w1, DrainWake(t), t);
      LosesBy(w, CallStart(0), t);
    } else {
      var c :| c in w.calls;
      StepKeepsInv(w, CallEnd(c));
      WaitingDrainLosesCall(Apply(w, CallEnd(c)), t);
      LosesBy(w, CallEnd(c), t);
    }
  }

  lemma ConnectDuringDrainLosesCall(w: World, t: nat)
    requires Inv(w) && Callable(w.link) && t in w.drains && Promised(w.drains[t])
    ensures CanLose(w, t)
  {
    if w.drains[t].Waiting? {
      WaitingDrainLosesCall(w, t);
    } else if w.calls == {} {
      assert 0 in Apply(w, CallStart(0)).calls;
      LostNow(Apply(w, CallStart(0)), t);
      LosesBy(w, CallStart(0), t);
    } else {
      LostNow(w, t);
    }
  }

  /** The drain is past the lock and will not break its promise, or it is over. */
  ghost predicate Kept(w: World, t: nat) {
    && Inv(w) && t in w.drains && !w.drains[t].Queued? && Clean(w.link, w.drains[t])
  }

  lemma {:induction false} ShutDrainLosesNothing(w: World, t: nat, steps: seq<Step>)
    requires Kept(w, t) && Leads(w, steps)
    ensures !Lost(After(w, steps), t)
    decreases |steps|
  {
    if steps != [] {
      var s := steps[0];
      StepKeepsInv(w, s);
      StillThere(w, s, t);
      UndisturbedAt(w, s, t);
      ShutDrainLosesNothing(Apply(w, s), t, steps[1..]);
    }
  }

  lemma StillThere(w: World, s: Step, t: nat)
    requires Enabled(w, s) && t in w.drains && !w.drains[t].Queued?
    ensures t in Apply(w, s).drains && !Apply(w, s).drains[t].Queued?
  {
  }

  /** After a step during an undisturbed drain that does not time out, some continuation without further connect
      steps makes the drain disconnect a call in flight exactly when the step let requests in again; on
      a connection that is still open, exactly when it is a step of a connect. */
  lemma DrainLosesCallIff(ws: seq<World>, steps: seq<Step>, s: Step, t: nat)
    requires Undisturbed(ws, steps) && t in ws[|steps|].drains && Promised(ws[|steps|].drains[t])
    requires Enabled(ws[|steps|], s)
    ensures CanLose(Apply(ws[|steps|], s), t) <==> Callable(Apply(ws[|steps|], s).link)
    ensures ws[|steps|].link.outbound ==> (CanLose(Apply(ws[|steps|], s), t) <==> ConnectSide(s))
  {
    var w := ws[|steps|];
    var w' := Apply(w, s);
    UndisturbedRun(ws, steps, |steps|);
    StepKeepsInv(w, s);
    StillThere(w, s, t);
    assert Clean(w.link, w.drains[t]);
    if Callable(w'.link) {
      OnlyConnectSide(w, s, t);
      ConnectDuringDrainLosesCall(w', t);
    } else {
      UndisturbedAt(w, s, t);
      forall more | Leads(w', more) ensures !Lost(After(w', more), t) {
        ShutDrainLosesNothing(w', t, more);
      }
    }
    if w.link.outbound {
      OnlyConnectReopens(w, s, t);
    }
  }

  /** Only a connect-side step lets requests in, and it does not move the drain. */
  lemma OnlyConnectSide(w: World, s: Step, t: nat)
    requires Enabled(w, s) && t in w.drains && !Callable(w.link) && Callable(Apply(w, s).link)
    ensures ConnectSide(s) && Apply(w, s).drains == w.drains
  {
  }

  /** A drain waiting for a call is reached by connecting, starting that call and draining. */
  lemma WaitingDrainIsReachable(t: nat, call: nat) returns (ws: seq<World>, steps: seq<Step>)
    ensures Undisturbed(ws, steps)
    ensures var w := ws[|steps|]; t in w.drains && w.drains[t].Waiting? && w.link.outbound && w.calls == {call}
  {
    ws, steps := [START], [];
    ws, steps := Extend(ws, steps, ConnectBegin);
    ws, steps := Extend(ws, steps, ConnectUp);
    ws, steps := Extend(ws, steps, CallStart(call));
    ws, steps := Extend(ws, steps, DrainRequest(t));
    ws, steps := Extend(ws, steps, DrainAcquire(t));
  }

  /** A run stays undisturbed by a step that reopens nothing, or that is taken while no drain is active. */
  lemma Extend(ws: seq<World>, steps: seq<Step>, s: Step) returns (ws': seq<World>, steps': seq<Step>)
    requires Undisturbed(ws, steps) && Enabled(ws[|steps|], s)
    requires ConnectSide(s) ==> !DrainActive(ws[|steps|])
    ensures Undisturbed(ws', steps') && |steps'| == |steps| + 1
    ensures ws'[|steps'|] == Apply(ws[|steps|], s)
  {
    ws', steps' := ws + [Apply(ws[|steps|], s)], steps + [s];
    forall i | 0 <= i < |steps'| ensures Taken(ws', steps', i) && KeepsShut(ws', steps', i) {
      assert i < |steps| ==> Taken(ws, steps, i) && KeepsShut(ws, steps, i);
    }
  }
}

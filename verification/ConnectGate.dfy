/**
 The single-flight gate around connecting a backend: the first caller runs the
 attempt, later callers join it by waiting for its event.
 */
module ConnectGate {
  import opened Prelude

  /** `events` is the table of attempts under way, `fired` the events that are set. */
  datatype Gate = Gate(events: map<string, nat>, fired: set<nat>, nextEvent: nat)

  function Opened(g: Gate, name: string): Gate {
    Gate(g.events[name := g.nextEvent], g.fired, g.nextEvent + 1)
  }

  function Released(g: Gate, name: string, event: nat): Gate {
    Gate(g.events - {name}, g.fired + {event}, g.nextEvent)
  }

  class SingleFlight {
    var events: map<string, nat>
    var fired: set<nat>
    var nextEvent: nat

    function View(): Gate
      reads this
    {
      Gate(events, fired, nextEvent)
    }

    constructor ()
      ensures View() == Gate(map[], {}, 0)
    {
      events, fired, nextEvent := map[], {}, 0;
    }

    /** Check and insert, with no suspension in between. */
    method Enter(name: string) returns (join: bool, event: nat)
      modifies this
      ensures join == (name in old(events))
      ensures join ==> event == old(events)[name] && View() == old(View())
      ensures !join ==> event == old(nextEvent) && View() == Opened(old(View()), name)
    {
      if name in events {
        return true, events[name];
      }
      join, event := false, nextEvent;
      events, nextEvent := events[name := event], nextEvent + 1;
    }

    /** The `finally` of an attempt. */
    method Release(name: string, event: nat)
      modifies this
      ensures View() == Released(old(View()), name, event)
    {
      fired := fired + {event};
      events := events - {name};
    }
  }

  // ---------------------------------------------------------------------
  // Any number of callers
  // ---------------------------------------------------------------------

  /** How an attempt's `try` block is left; the gate is released in every case. */
  datatype Exit = Connected | TimedOut | Refused | Raised | Interrupted

  datatype Caller = Joined(name: string, event: nat) | Running(name: string, event: nat)
                  | JoinReturned(name: string, event: nat) | Left(name: string, exit: Exit) | Abandoned

  datatype World = World(gate: Gate, callers: map<nat, Caller>)

  datatype Step =
    | Call(caller: nat, name: string)
    | End(caller: nat, exit: Exit)
    | JoinReturn(caller: nat)
    | JoinCancel(caller: nat)

  predicate Enabled(w: World, s: Step) {
    match s
    case Call(c, name) => c !in w.callers
    case End(c, exit) => c in w.callers && w.callers[c].Running?
    case JoinReturn(c) => c in w.callers && w.callers[c].Joined? && w.callers[c].event in w.gate.fired
    case JoinCancel(c) => c in w.callers && w.callers[c].Joined?
  }

  function Apply(w: World, s: Step): World
    requires Enabled(w, s)
  {
    match s
    case Call(c, name) =>
      if name in w.gate.events then w.(callers := w.callers[c := Joined(name, w.gate.events[name])])
      else World(Opened(w.gate, name), w.callers[c := Running(name, w.gate.nextEvent)])
    case End(c, exit) =>
      var r := w.callers[c];
      World(Released(w.gate, r.name, r.event), w.callers[c := Left(r.name, exit)])
    case JoinReturn(c) => w.(callers := w.callers[c := JoinReturned(w.callers[c].name, w.callers[c].event)])
    case JoinCancel(c) => w.(callers := w.callers[c := Abandoned])
  }

  const START := World(Gate(map[], {}, 0), map[])

  ghost predicate IsRun(ws: seq<World>, steps: seq<Step>) {
    && |ws| == |steps| + 1 && ws[0] == START
    && forall i :: 0 <= i < |steps| ==> Enabled(ws[i], steps[i]) && ws[i + 1] == Apply(ws[i], steps[i])
  }

  /** Caller `c` runs the attempt behind this event. */
  ghost predicate Runs(w: World, c: nat, name: string, event: nat) {
    c in w.callers && w.callers[c] == Running(name, event)
  }

  ghost predicate CallerOk(g: Gate, k: Caller) {
    match k
    case Running(n, e) => n in g.events && g.events[n] == e && e !in g.fired
    case Joined(n, e) => e in g.fired || (n in g.events && g.events[n] == e)
    case JoinReturned(n, e) => e in g.fired
    case _ => true
  }

  ghost predicate GateOk(g: Gate) {
    && (forall n :: n in g.events ==> g.events[n] < g.nextEvent)
    && (forall e :: e in g.fired ==> e < g.nextEvent)
    && (forall m, n :: m in g.events && n in g.events && m != n ==> g.events[m] != g.events[n])
  }

  ghost predicate Manned(w: World) {
    forall n :: n in w.gate.events ==> exists c :: Runs(w, c, n, w.gate.events[n])
  }

  ghost predicate OneRunnerEach(w: World) {
    forall c, d :: c in w.callers && d in w.callers && w.callers[c].Running? && w.callers[c] == w.callers[d] ==> c == d
  }

  ghost predicate Inv(w: World) {
    && GateOk(w.gate)
    && (forall c :: c in w.callers ==> CallerOk(w.gate, w.callers[c]))
    && Manned(w) && OneRunnerEach(w)
  }

  lemma StepKeepsGate(w: World, s: Step)
    requires Inv(w) && Enabled(w, s)
    ensures GateOk(Apply(w, s).gate)
  {
  }

  lemma StepKeepsOneRunner(w: World, s: Step)
    requires Inv(w) && Enabled(w, s)
    ensures OneRunnerEach(Apply(w, s))
  {
    assert forall c :: c in w.callers && w.callers[c].Running? ==> CallerOk(w.gate, w.callers[c]);
  }

  lemma StepKeepsCaller(w: World, s: Step, c: nat)
    requires Inv(w) && Enabled(w, s) && c in Apply(w, s).callers
    ensures CallerOk(Apply(w, s).gate, Apply(w, s).callers[c])
  {
    if s.End? && c != s.caller {
      assert CallerOk(w.gate, w.callers[c]) && CallerOk(w.gate, w.callers[s.caller]);
      assert w.callers[c].Running? ==> w.callers[c].name != w.callers[s.caller].name;
    }
  }

  lemma StepKeepsManned(w: World, s: Step)
    requires Inv(w) && Enabled(w, s)
    ensures Manned(Apply(w, s))
  {
    var w' := Apply(w, s);
    forall n | n in w'.gate.events ensures exists c :: Runs(w', c, n, w'.gate.events[n]) {
      if n in w.gate.events {
        var c :| Runs(w, c, n, w.gate.events[n]);
        assert Runs(w', c, n, w'.gate.events[n]);
      } else {
        assert Runs(w', s.caller, n, w'.gate.events[n]);
      }
    }
  }

  lemma StepKeepsInv(w: World, s: Step)
    requires Inv(w) && Enabled(w, s)
    ensures Inv(Apply(w, s))
  {
    StepKeepsGate(w, s);
    StepKeepsOneRunner(w, s);
    StepKeepsManned(w, s);
    var w' := Apply(w, s);
    forall c | c in w'.callers ensures CallerOk(w'.gate, w'.callers[c]) {
      StepKeepsCaller(w, s, c);
    }
  }

  lemma {:induction false} RunKeepsInv(ws: seq<World>, steps: seq<Step>, i: nat)
    requires IsRun(ws, steps) && i < |ws|
    ensures Inv(ws[i])
  {
    if i > 0 {
      RunKeepsInv(ws, steps, i - 1);
      StepKeepsInv(ws[i - 1], steps[i - 1]);
    }
  }

  /** In every interleaving a backend has at most one attempt under way, and the gate is
      closed exactly while one is: whatever way an attempt ended, the next call may start one. */
  lemma AtMostOneAttempt(ws: seq<World>, steps: seq<Step>, i: nat, name: string)
    requires IsRun(ws, steps) && i < |ws|
    ensures forall c, d, e, f :: Runs(ws[i], c, name, e) && Runs(ws[i], d, name, f) ==> c == d && e == f
    ensures name in ws[i].gate.events <==> exists c, e :: Runs(ws[i], c, name, e)
  {
    RunKeepsInv(ws, steps, i);
    if name in ws[i].gate.events {
      var c :| Runs(ws[i], c, name, ws[i].gate.events[name]);
    }
  }

  /** A joiner is never stranded: its attempt is still running or it may return at once. */
  lemma JoinerIsNeverStranded(ws: seq<World>, steps: seq<Step>, i: nat, c: nat)
    requires IsRun(ws, steps) && i < |ws| && c in ws[i].callers && ws[i].callers[c].Joined?
    ensures Enabled(ws[i], JoinReturn(c)) <==>
            !exists d :: Runs(ws[i], d, ws[i].callers[c].name, ws[i].callers[c].event)
  {
    RunKeepsInv(ws, steps, i);
    var k := ws[i].callers[c];
    if k.event !in ws[i].gate.fired {
      var d :| Runs(ws[i], d, k.name, ws[i].gate.events[k.name]);
      assert Runs(ws[i], d, k.name, k.event);
    }
  }

  /** An event becomes set only when the caller running that attempt ends. */
  lemma {:induction false} FiredByItsRunner(ws: seq<World>, steps: seq<Step>, i: nat, j: nat, e: nat) returns (k: nat)
    requires IsRun(ws, steps) && i <= j < |ws| && e !in ws[i].gate.fired && e in ws[j].gate.fired
    ensures i <= k < j && steps[k].End? && ws[k].callers[steps[k].caller].event == e && e !in ws[k].gate.fired
    decreases j - i
  {
    if e in ws[j - 1].gate.fired {
      k := FiredByItsRunner(ws, steps, i, j - 1, e);
    } else {
      k := j - 1;
    }
  }

  /** A caller that joined returns only after the attempt it found under way has ended, and
      that end falls between its call and its return. */
  lemma JoinerOutlivesAttempt(ws: seq<World>, steps: seq<Step>, i: nat, j: nat, c: nat, name: string) returns (k: nat)
    requires IsRun(ws, steps) && i < j < |steps|
    requires steps[i] == Call(c, name) && name in ws[i].gate.events && steps[j] == JoinReturn(c)
    ensures i < k < j && steps[k].End?
    ensures Runs(ws[k], steps[k].caller, name, ws[i].gate.events[name])
    ensures exists d :: Runs(ws[i], d, name, ws[i].gate.events[name]) && d == steps[k].caller
  {
    var e := ws[i].gate.events[name];
    RunKeepsInv(ws, steps, i);
    var d :| Runs(ws[i], d, name, e);
    StaysJoined(ws, steps, i + 1, j, c, Joined(name, e));
    k := FiredByItsRunner(ws, steps, i + 1, j, e);
    RunnerStays(ws, steps, i, k, d, Running(name, e));
    RunKeepsInv(ws, steps, k);
    SameEventSameRunner(ws[k], d, steps[k].caller);
  }

  lemma SameEventSameRunner(w: World, c: nat, d: nat)
    requires Inv(w) && c in w.callers && d in w.callers && w.callers[c].Running? && w.callers[d].Running?
    requires w.callers[c].event == w.callers[d].event
    ensures c == d
  {
    assert w.callers[c].name == w.callers[d].name;
  }

  lemma {:induction false} StaysJoined(ws: seq<World>, steps: seq<Step>, i: nat, j: nat, c: nat, k: Caller)
    requires IsRun(ws, steps) && i <= j < |steps| && c in ws[i].callers && ws[i].callers[c] == k && k.Joined?
    requires steps[j] == JoinReturn(c)
    ensures c in ws[j].callers && ws[j].callers[c] == k
    decreases j - i
  {
    if i < j {
      SettledStays(ws, steps, i + 1, j, c);
      StaysJoined(ws, steps, i + 1, j, c, k);
    }
  }

  /** A caller that has returned takes no further step. */
  lemma {:induction false} SettledStays(ws: seq<World>, steps: seq<Step>, i: nat, j: nat, c: nat)
    requires IsRun(ws, steps) && i <= j < |ws| && c in ws[i].callers
    ensures c in ws[j].callers
    ensures !ws[i].callers[c].Joined? && !ws[i].callers[c].Running? ==> ws[j].callers[c] == ws[i].callers[c]
    decreases j - i
  {
    if i < j {
      SettledStays(ws, steps, i + 1, j, c);
    }
  }

  /** The attempt found at `i` is still with the same caller when its event is about to be set. */
  lemma {:induction false} RunnerStays(ws: seq<World>, steps: seq<Step>, i: nat, k: nat, d: nat, r: Caller)
    requires IsRun(ws, steps) && i <= k < |ws| && d in ws[i].callers && ws[i].callers[d] == r && r.Running?
    requires r.event !in ws[k].gate.fired
    ensures d in ws[k].callers && ws[k].callers[d] == r
    decreases k - i
  {
    if i < k {
      if r.event in ws[i + 1].gate.fired {
        FiredStays(ws, steps, i + 1, k, r.event);
      }
      RunnerStays(ws, steps, i + 1, k, d, r);
    }
  }

  lemma {:induction false} FiredStays(ws: seq<World>, steps: seq<Step>, i: nat, j: nat, e: nat)
    requires IsRun(ws, steps) && i <= j < |ws| && e in ws[i].gate.fired
    ensures e in ws[j].gate.fired
    decreases j - i
  {
    if i < j {
      FiredStays(ws, steps, i + 1, j, e);
    }
  }
}

/**
 The supervised connect loop and its circuit breaker.  The backend is an oracle:
 a sequence of outcomes, one per connect attempt, together with one jitter draw
 in [0, 1] per attempt.
 */
module Supervisor {
  import opened Prelude
  import opened Lifecycle
  import opened Classifier

  datatype Config = Config(threshold: int, escalation: int, base: real, factor: real, max: real)

  /** How one attempt ends: `found` is the state other tasks left when the await of the attempt
      returns, and `next` the one they left at the next pass of the loop. */
  datatype Outcome =
    | CameUp(found: Life, next: Life)    // CONNECTED, later dropped
    | CameBack(found: Life, next: Life)  // returned, but another task already moved the connection on
    | NeedsLogin(found: Life)            // returned in AUTH_REQUIRED
    | ConnectionFailed(found: Life, fc: FailureClass, next: Life)
    | OtherFailure(found: Life, fc: FailureClass)
    | Interrupted(found: Life)           // cancelled

  type Edge = (Life, Life)

  /** `tries` counts connect attempts; `trace` lists the state changes made on the way. */
  datatype Sup = Sup(life: Life, failures: nat, open: bool, cycles: nat, attention: bool, restarts: nat,
                     done: bool, tries: nat, sleeps: seq<real>, trace: seq<Edge>)

  function Start(life: Life): Sup {
    Sup(life, 0, false, 0, false, 0, false, 0, [], [])
  }

  function Goto(s: Sup, to: Life): Sup {
    s.(life := to, trace := s.trace + [(s.life, to)])
  }

  function Pow(f: real, n: nat): real {
    if n == 0 then 1.0 else f * Pow(f, n - 1)
  }

  function Least(a: real, b: real): real {
    if b < a then b else a
  }

  /** Full jitter: uniform(0, min(max, base * factor ** attempt)) with draw `u`. */
  function Backoff(c: Config, attempt: nat, u: real): real {
    u * Least(c.max, c.base * Pow(c.factor, attempt))
  }

  function Success(s: Sup): Sup {
    s.(failures := 0, open := false, attention := false, restarts := s.restarts + 1)
  }

  /** A transient failure up to and including its sleep. */
  function Transient(c: Config, s: Sup, u: real): Sup {
    var n := s.failures + 1;
    if n >= c.threshold || s.open then
      var s1 := Goto(s, CircuitOpen);
      s1.(failures := n, open := true, cycles := s.cycles + 1,
          attention := s.attention || s.cycles + 1 >= c.escalation, sleeps := s.sleeps + [c.max])
    else
      Goto(s, Reconnecting).(failures := n, sleeps := s.sleeps + [Backoff(c, n - 1, u)])
  }

  function Failure(c: Config, s: Sup, fc: FailureClass, u: real): Sup {
    match fc
    case AUTH => s.(done := true)
    case TERMINAL => Goto(s, Failed).(done := true)
    case TRANSIENT => Transient(c, s, u)
  }

  /** Before connecting: leave CIRCUIT_OPEN through RECONNECTING, then CONNECTING unless connected. */
  function Approach(s: Sup): Sup {
    var s1 := if s.open && s.life == CircuitOpen then Goto(s, Reconnecting) else s;
    var s2 := if s1.life == Connected then s1 else Goto(s1, Connecting);
    s2.(tries := s.tries + 1)
  }

  /** On a connected connection connect() returns at once, whatever the backend would have said. */
  function AnswerIn(life: Life, o: Outcome): Outcome {
    if life == Connected && !o.CameUp? then CameUp(Connected, Connected) else o
  }

  function Answer(s: Sup, o: Outcome): Outcome {
    AnswerIn(s.life, o)
  }

  /** The state transitions start from once the await is over. */
  function Awaited(s: Sup, found: Life): Sup {
    if s.life == Connected then s else s.(life := found)
  }

  function Arrive(s: Sup, found: Life): Sup {
    if s.life == Connected then s else Goto(s.(life := found), Connected)
  }

  /** One pass of the loop. */
  function Pass(c: Config, s: Sup, o: Outcome, u: real): Sup {
    AfterAwait(c, Approach(s), Answer(s, o), u)
  }

  function AfterAwait(c: Config, a: Sup, o: Outcome, u: real): Sup {
    match o
    case CameUp(found, next) => Success(Arrive(a, found)).(life := next)
    case CameBack(found, next) =>
      Arrive(a, found).(life := next, sleeps := a.sleeps + [Backoff(c, a.failures, u)])
    case NeedsLogin(found) => Goto(Awaited(a, found), AuthRequired).(done := true)
    case ConnectionFailed(found, fc, next) => Slept(Failure(c, Goto(Awaited(a, found), Error), fc, u), next)
    case OtherFailure(found, fc) =>
      if fc == AUTH then a.(done := true) else Goto(Awaited(a, found), Failed).(done := true)
    case Interrupted(_) => a.(done := true)
  }

  function Slept(s: Sup, next: Life): Sup {
    if s.done then s else s.(life := next)
  }

  /** The loop over the oracle's answers; it asks no more once done. */
  function Run(c: Config, s: Sup, os: seq<Outcome>, us: seq<real>): Sup
    requires |us| == |os|
  {
    if os == [] then s
    else
      var n := |os| - 1;
      var r := Run(c, s, os[..n], us[..n]);
      if r.done then r else Pass(c, r, os[n], us[n])
  }

  class ConnectionSupervisor {
    const config: Config
    var life: Life
    var failures: nat
    var open: bool
    var cycles: nat
    var attention: bool
    var restarts: nat
    var done: bool
    var tries: nat
    var sleeps: seq<real>
    var trace: seq<Edge>

    function View(): Sup
      reads this
    {
      Sup(life, failures, open, cycles, attention, restarts, done, tries, sleeps, trace)
    }

    constructor (c: Config, from: Life)
      ensures config == c && View() == Start(from)
    {
      config, life := c, from;
      failures, open, cycles, attention, restarts := 0, false, 0, false, 0;
      done, tries, sleeps, trace := false, 0, [], [];
    }

    method Transition(to: Life)
      modifies this
      ensures View() == Goto(old(View()), to)
    {
      trace := trace + [(life, to)];
      life := to;
    }

    static method ComputeBackoff(c: Config, attempt: nat, u: real) returns (d: real)
      ensures d == Backoff(c, attempt, u)
    {
      var power := 1.0;
      for i := 0 to attempt
        invariant power == Pow(c.factor, i)
      {
        power := c.factor * power;
      }
      var cap := if c.base * power < c.max then c.base * power else c.max;
      d := u * cap;
    }

    method OnConnectSuccess()
      modifies this
      ensures View() == Success(old(View()))
    {
      failures, open, attention := 0, false, false;
      restarts := restarts + 1;
    }

    method HandleConnectFailure(fc: FailureClass, u: real)
      modifies this
      ensures View() == Failure(config, old(View()), fc, u)
    {
      if fc == AUTH {
        done := true;
        return;
      }
      if fc == TERMINAL {
        Transition(Failed);
        done := true;
        return;
      }
      failures := failures + 1;
      var backoff: real;
      if failures >= config.threshold && !open {
        Transition(CircuitOpen);
        open, cycles := true, cycles + 1;
        if cycles >= config.escalation {
          attention := true;
        }
        backoff := config.max;
      } else if open {
        Transition(CircuitOpen);
        cycles := cycles + 1;
        if !attention && cycles >= config.escalation {
          attention := true;
        }
        backoff := config.max;
      } else {
        Transition(Reconnecting);
        backoff := ComputeBackoff(config, failures - 1, u);
      }
      sleeps := sleeps + [backoff];
    }

    /** `_supervised_loop`; it ends when stopped or when the oracle has no more to say. */
    method SupervisedLoop(os: seq<Outcome>, us: seq<real>)
      requires |us| == |os|
      modifies this
      ensures View() == Run(config, old(View()), os, us)
    {
      var i := 0;
      while !done && i < |os|
        invariant i <= |os| && View() == Run(config, old(View()), os[..i], us[..i])
      {
        assert os[..i + 1][..i] == os[..i] && us[..i + 1][..i] == us[..i];
        OnePass(os[i], us[i]);
        i := i + 1;
      }
      StopsThere(config, old(View()), os, us, i);
    }

    /** Up to the point where connect() asks the backend, or finds the connection connected. */
    method BeginConnect()
      modifies this
      ensures View() == Approach(old(View()))
    {
      if open && life == CircuitOpen {
        Transition(Reconnecting);
      }
      tries := tries + 1;
      if life != Connected {
        Transition(Connecting);
      }
    }

    method OnePass(o: Outcome, u: real)
      modifies this
      ensures View() == Pass(config, old(View()), o, u)
    {
      BeginConnect();
      if life == Connected {
        OnConnectSuccess();
        life := if o.CameUp? then o.next else Connected;
      } else {
        EndConnect(o, u);
      }
    }

    /** The await raised a ConnectionError. */
    method FailConnect(found: Life, fc: FailureClass, next: Life, u: real)
      requires life != Connected
      modifies this
      ensures View() == AfterAwait(config, old(View()), ConnectionFailed(found, fc, next), u)
    {
      life := found;
      Transition(Error);
      HandleConnectFailure(fc, u);
      life := if done then life else next;
    }

    /** The await of the attempt has returned. */
    method EndConnect(o: Outcome, u: real)
      requires life != Connected
      modifies this
      ensures View() == AfterAwait(config, old(View()), o, u)
    {
      if o.CameUp? {
        life := o.found;
        Transition(Connected);
        OnConnectSuccess();
        life := o.next;
      } else if o.CameBack? {
        life := o.found;
        Transition(Connected);
        life := o.next;
        var backoff := ComputeBackoff(config, failures, u);
        sleeps := sleeps + [backoff];
      } else if o.ConnectionFailed? {
        FailConnect(o.found, o.fc, o.next, u);
      } else {
        if o.NeedsLogin? {
          life := o.found;
          Transition(AuthRequired);
        } else if o.OtherFailure? && o.fc != AUTH {
          life := o.found;
          Transition(Failed);
        }
        done := true;
      }
    }
  }

  lemma SameBeginning(os: seq<Outcome>, us: seq<real>, n: nat, i: nat)
    requires |us| == |os| && i <= n <= |os|
    ensures os[..n][..i] == os[..i] && us[..n][..i] == us[..i]
  {
  }

  /** Once done, further answers are never asked for. */
  lemma {:induction false} StopsThere(c: Config, s: Sup, os: seq<Outcome>, us: seq<real>, i: nat)
    requires |us| == |os| && i <= |os| && (Run(c, s, os[..i], us[..i]).done || i == |os|)
    ensures Run(c, s, os, us) == Run(c, s, os[..i], us[..i])
    decreases |os|
  {
    if i == |os| {
      assert os[..i] == os && us[..i] == us;
    } else {
      var n := |os| - 1;
      var init, draws := os[..n], us[..n];
      SameBeginning(os, us, n, i);
      StopsThere(c, s, init, draws, i);
      assert Run(c, s, init, draws).done;
    }
  }

  // ---------------------------------------------------------------------
  // When the loop ends
  // ---------------------------------------------------------------------

  /** Outcomes after which the loop makes no further attempt. */
  predicate Ends(o: Outcome) {
    match o
    case CameUp(_, _) => false
    case CameBack(_, _) => false
    case NeedsLogin(_) => true
    case ConnectionFailed(_, fc, _) => fc != TRANSIENT
    case OtherFailure(_, _) => true
    case Interrupted(_) => true
  }

  /** The loop after the first `i` answers. */
  ghost function At(c: Config, s: Sup, os: seq<Outcome>, us: seq<real>, i: nat): Sup
    requires |us| == |os| && i <= |os|
  {
    Run(c, s, os[..i], us[..i])
  }

  lemma RunStep(c: Config, s: Sup, os: seq<Outcome>, us: seq<real>, i: nat)
    requires |us| == |os| && i < |os|
    ensures At(c, s, os, us, i + 1) ==
            if At(c, s, os, us, i).done then At(c, s, os, us, i) else Pass(c, At(c, s, os, us, i), os[i], us[i])
  {
    assert os[..i + 1][..i] == os[..i] && us[..i + 1][..i] == us[..i];
  }

  /** A terminal or authentication failure, whatever the path it was raised on, is the last attempt of the run. */
  lemma NoAttemptAfterEnd(c: Config, s: Sup, os: seq<Outcome>, us: seq<real>, i: nat)
    requires |us| == |os| && i < |os| && !At(c, s, os, us, i).done
    ensures Ends(Answer(At(c, s, os, us, i), os[i])) ==> Run(c, s, os, us).tries == At(c, s, os, us, i).tries + 1
    ensures !Ends(Answer(At(c, s, os, us, i), os[i])) ==> !At(c, s, os, us, i + 1).done
  {
    RunStep(c, s, os, us, i);
    PassEnds(c, At(c, s, os, us, i), os[i], us[i]);
    if Ends(Answer(At(c, s, os, us, i), os[i])) {
      StopsThere(c, s, os, us, i + 1);
    }
  }

  lemma PassEnds(c: Config, s: Sup, o: Outcome, u: real)
    requires !s.done
    ensures Pass(c, s, o, u).done <==> Ends(Answer(s, o))
    ensures Pass(c, s, o, u).tries == s.tries + 1
  {
  }

  /** Wrapping an authentication or terminal failure does not hide it: however often it was re-raised as a
      ConnectionError, as long as the deciding exception is within reach no later attempt occurs. */
  lemma WrappedFailureEndsRun(c: Config, s: Sup, os: seq<Outcome>, us: seq<real>, i: nat,
                              g: Graph, e: nat, h: Graph, ws: seq<nat>, k: nat)
    requires |us| == |os| && i < |os| && !At(c, s, os, us, i).done && At(c, s, os, us, i).life != Connected
    requires Closed(g) && e in g && Wraps(g, e, h, ws) && Decides(g, e, k) && |ws| + k < MAX_DEPTH
    requires os[i].ConnectionFailed? && os[i].fc == Classify(h, Top(e, ws))
    ensures os[i].fc == Classify(g, e) && Run(c, s, os, us).tries == At(c, s, os, us, i).tries + 1
  {
    WrappingKeepsClassIff(g, e, h, ws);
    NoAttemptAfterEnd(c, s, os, us, i);
  }

  /** Every attempt made is answered by the backend: they number up to the first ending outcome. */
  lemma {:induction false} AttemptsMade(c: Config, s: Sup, os: seq<Outcome>, us: seq<real>, n: nat)
    requires |us| == |os| && n <= |os| && !s.done
    requires forall i :: 0 <= i < n ==> !Ends(Answer(At(c, s, os, us, i), os[i]))
    ensures !At(c, s, os, us, n).done && At(c, s, os, us, n).tries == s.tries + n
  {
    if n > 0 {
      AttemptsMade(c, s, os, us, n - 1);
      RunStep(c, s, os, us, n - 1);
      PassEnds(c, At(c, s, os, us, n - 1), os[n - 1], us[n - 1]);
    }
  }

  // ---------------------------------------------------------------------
  // The breaker in closed form
  // ---------------------------------------------------------------------

  /** Successes (true) and transient failures (false) of a run, in order. */
  ghost function Marks(c: Config, s: Sup, os: seq<Outcome>, us: seq<real>): seq<bool>
    requires |us| == |os|
  {
    if os == [] then []
    else
      var n := |os| - 1;
      var r, h := Run(c, s, os[..n], us[..n]), Marks(c, s, os[..n], us[..n]);
      if r.done then h else h + Mark(Answer(r, os[n]))
  }

  predicate IsTransient(o: Outcome) {
    o.ConnectionFailed? && o.fc == TRANSIENT
  }

  ghost function Mark(o: Outcome): seq<bool> {
    if o.CameUp? then [true] else if IsTransient(o) then [false] else []
  }

  /** Lengths of the failure runs between successes, the last one possibly still going on. */
  ghost function FailureRuns(h: seq<bool>): (rs: seq<nat>)
    ensures rs != []
  {
    if h == [] then [0]
    else
      var n := |h| - 1;
      var rs := FailureRuns(h[..n]);
      if h[n] then rs + [0] else rs[|rs| - 1 := rs[|rs| - 1] + 1]
  }

  ghost function Failures(n: nat): seq<bool> {
    seq(n, _ => false)
  }

  /** The history with these failure runs. */
  ghost function Spelled(rs: seq<nat>): seq<bool>
    requires rs != []
  {
    var n := |rs| - 1;
    if n == 0 then Failures(rs[0]) else Spelled(rs[..n]) + [true] + Failures(rs[n])
  }

  /** The runs are maximal: put back together with one success between each two, they are the history. */
  lemma {:induction false} RunsSpellHistory(h: seq<bool>)
    ensures Spelled(FailureRuns(h)) == h
  {
    if h != [] {
      var n := |h| - 1;
      var rs := FailureRuns(h[..n]);
      var k := |rs| - 1;
      RunsSpellHistory(h[..n]);
      assert h == h[..n] + [h[n]];
      if h[n] {
        assert (rs + [0])[..k + 1] == rs;
      } else {
        assert Failures(rs[k] + 1) == Failures(rs[k]) + [false];
        assert rs[k := rs[k] + 1][..k] == rs[..k];
      }
    }
  }

  /** Failures at or past the threshold, over all runs. */
  ghost function Excess(rs: seq<nat>, t: int): nat {
    if rs == [] then 0 else Excess(rs[..|rs| - 1], t) + Max(0, rs[|rs| - 1] - t + 1)
  }

  ghost function Count(h: seq<bool>): nat {
    if h == [] then 0 else Count(h[..|h| - 1]) + if h[|h| - 1] then 1 else 0
  }

  /** A threshold below one acts as one. */
  ghost function Threshold(c: Config): int {
    Max(c.threshold, 1)
  }

  ghost predicate ClosedForm(c: Config, r: Sup, h: seq<bool>) {
    var rs := FailureRuns(h);
    && r.failures == rs[|rs| - 1]
    && (r.open <==> r.failures >= Threshold(c))
    && r.cycles == Excess(rs, Threshold(c))
    && (r.attention <==> r.open && r.cycles >= c.escalation)
    && r.restarts == Count(h)
  }

  ghost predicate SameCounters(a: Sup, b: Sup) {
    && a.failures == b.failures && a.open == b.open && a.cycles == b.cycles
    && a.attention == b.attention && a.restarts == b.restarts
  }

  lemma SuccessForm(c: Config, r: Sup, h: seq<bool>)
    requires ClosedForm(c, r, h)
    ensures ClosedForm(c, Success(r), h + [true])
  {
    var rs := FailureRuns(h);
    assert (h + [true])[..|h|] == h;
    assert (rs + [0])[..|rs|] == rs;
  }

  lemma FailureForm(c: Config, r: Sup, h: seq<bool>, u: real)
    requires ClosedForm(c, r, h)
    ensures ClosedForm(c, Transient(c, r, u), h + [false])
  {
    var rs := FailureRuns(h);
    var k := |rs| - 1;
    assert (h + [false])[..|h|] == h;
    assert rs[k := rs[k] + 1][..k] == rs[..k];
  }

  /** What a pass does to the counters. */
  lemma PassCounters(c: Config, r: Sup, o: Outcome, u: real)
    ensures var p, a := Pass(c, r, o, u), Answer(r, o);
            if a.CameUp? then SameCounters(p, Success(r))
            else if IsTransient(a) then SameCounters(p, Transient(c, r, u))
            else SameCounters(p, r)
  {
    ApproachKeeps(r);
  }

  lemma CountersDecide(c: Config, a: Sup, b: Sup, h: seq<bool>)
    requires SameCounters(a, b) && ClosedForm(c, b, h)
    ensures ClosedForm(c, a, h)
  {
  }

  lemma PassForm(c: Config, r: Sup, o: Outcome, u: real, h: seq<bool>)
    requires ClosedForm(c, r, h)
    ensures ClosedForm(c, Pass(c, r, o, u), h + Mark(Answer(r, o)))
  {
    var p, a := Pass(c, r, o, u), Answer(r, o);
    PassCounters(c, r, o, u);
    if a.CameUp? {
      SuccessForm(c, r, h);
      CountersDecide(c, p, Success(r), h + [true]);
    } else if IsTransient(a) {
      FailureForm(c, r, h, u);
      CountersDecide(c, p, Transient(c, r, u), h + [false]);
    } else {
      assert h + [] == h;
      CountersDecide(c, p, r, h);
    }
  }

  /** Over every run: the breaker is open exactly when the current failure run reached the threshold,
      the open cycles add up how far each failure run went past it, attention is asked for exactly
      while the breaker is open after enough cycles, and restarts count the successes. */
  lemma {:induction false} BreakerClosedForm(c: Config, life: Life, os: seq<Outcome>, us: seq<real>)
    requires |us| == |os|
    ensures ClosedForm(c, Run(c, Start(life), os, us), Marks(c, Start(life), os, us))
  {
    if os != [] {
      var n := |os| - 1;
      var r, h := Run(c, Start(life), os[..n], us[..n]), Marks(c, Start(life), os[..n], us[..n]);
      BreakerClosedForm(c, life, os[..n], us[..n]);
      if !r.done {
        PassForm(c, r, os[n], us[n], h);
      }
    }
  }

  // ---------------------------------------------------------------------
  // Sleeps
  // ---------------------------------------------------------------------

  ghost predicate Waits(c: Config, sleeps: seq<real>) {
    forall i :: 0 <= i < |sleeps| ==> 0.0 <= sleeps[i] <= c.max
  }

  lemma {:induction false} PowNonNegative(f: real, n: nat)
    requires f >= 0.0
    ensures Pow(f, n) >= 0.0
  {
    if n > 0 {
      PowNonNegative(f, n - 1);
      NonNegativeProduct(f, Pow(f, n - 1));
    }
  }

  lemma BackoffBounded(c: Config, attempt: nat, u: real)
    requires c.base >= 0.0 && c.factor >= 0.0 && c.max >= 0.0 && 0.0 <= u <= 1.0
    ensures 0.0 <= Backoff(c, attempt, u) <= c.max
  {
    PowNonNegative(c.factor, attempt);
    var raw := c.base * Pow(c.factor, attempt);
    NonNegativeProduct(c.base, Pow(c.factor, attempt));
    var cap := Least(c.max, raw);
    NonNegativeProduct(u, cap);
    NonNegativeProduct(1.0 - u, cap);
    assert u * cap == cap - (1.0 - u) * cap;
  }

  lemma NonNegativeProduct(a: real, b: real)
    requires a >= 0.0 && b >= 0.0
    ensures a * b >= 0.0
  {
  }

  /** Every sleep of every run lies between zero and the maximal backoff. */
  lemma {:induction false} SleepsBounded(c: Config, s: Sup, os: seq<Outcome>, us: seq<real>)
    requires |us| == |os| && c.base >= 0.0 && c.factor >= 0.0 && c.max >= 0.0
    requires (forall i :: 0 <= i < |us| ==> 0.0 <= us[i] <= 1.0) && Waits(c, s.sleeps)
    ensures Waits(c, Run(c, s, os, us).sleeps)
  {
    if os != [] {
      var n := |os| - 1;
      SleepsBounded(c, s, os[..n], us[..n]);
      PassSleeps(c, Run(c, s, os[..n], us[..n]), os[n], us[n]);
    }
  }

  /** A pass sleeps at most once. */
  lemma PassSleeps(c: Config, r: Sup, o: Outcome, u: real)
    requires c.base >= 0.0 && c.factor >= 0.0 && c.max >= 0.0 && 0.0 <= u <= 1.0 && Waits(c, r.sleeps)
    ensures Waits(c, Pass(c, r, o, u).sleeps)
  {
    BackoffBounded(c, r.failures, u);
    OneSleep(c, r, o, u);
  }

  lemma OneSleep(c: Config, r: Sup, o: Outcome, u: real)
    ensures var after := Pass(c, r, o, u).sleeps;
            after == r.sleeps || after == r.sleeps + [c.max] || after == r.sleeps + [Backoff(c, r.failures, u)]
  {
    ApproachKeeps(r);
    var a := Answer(r, o);
    if a.ConnectionFailed? {
      FailureSleeps(c, Goto(Awaited(Approach(r), a.found), Error), a.fc, u);
    }
  }

  lemma ApproachKeeps(s: Sup)
    ensures SameCounters(Approach(s), s) && Approach(s).sleeps == s.sleeps && Approach(s).done == s.done
  {
  }

  lemma FailureSleeps(c: Config, s: Sup, fc: FailureClass, u: real)
    ensures var after := Failure(c, s, fc, u).sleeps;
            after == s.sleeps || after == s.sleeps + [c.max] || after == s.sleeps + [Backoff(c, s.failures, u)]
  {
  }

  // ---------------------------------------------------------------------
  // The designed transition table
  // ---------------------------------------------------------------------

  ghost predicate AllOnTable(trace: seq<Edge>) {
    forall i :: 0 <= i < |trace| ==> OnTable(trace[i].0, trace[i].1)
  }

  /** A pass takes an edge missing from the table: it starts from a state the table gives no way to
      connect from, or its attempt leaves the table. */
  predicate LeavesTable(life: Life, o: Outcome) {
    life !in {Connected, Disconnected, Connecting, Error, AuthRequired} || (life != Connected && EndsOffTable(o))
  }

  /** The table gives no way from the state found after the await to the one the outcome calls for, or
      the attempt ends in a connection failure that is not about authentication. */
  predicate EndsOffTable(o: Outcome) {
    match o
    case CameUp(found, _) => !OnTable(found, Connected)
    case CameBack(found, _) => !OnTable(found, Connected)
    case NeedsLogin(found) => !OnTable(found, AuthRequired)
    case ConnectionFailed(found, fc, _) => fc != AUTH || !OnTable(found, Error)
    case OtherFailure(found, fc) => fc != AUTH && !OnTable(found, Failed)
    case Interrupted(_) => false
  }

  lemma {:induction false} TraceSnoc(trace: seq<Edge>, e: Edge)
    ensures AllOnTable(trace + [e]) <==> AllOnTable(trace) && OnTable(e.0, e.1)
  {
    var t := trace + [e];
    if AllOnTable(t) {
      forall i | 0 <= i < |trace| ensures OnTable(trace[i].0, trace[i].1) {
        assert t[i] == trace[i];
      }
      assert t[|trace|] == e;
    }
  }

  lemma GotoOnTable(s: Sup, to: Life)
    ensures AllOnTable(Goto(s, to).trace) <==> AllOnTable(s.trace) && OnTable(s.life, to)
  {
    TraceSnoc(s.trace, (s.life, to));
  }

  lemma ApproachOnTable(s: Sup)
    ensures AllOnTable(Approach(s).trace) <==>
            AllOnTable(s.trace) && s.life in {Connected, Disconnected, Connecting, Error, AuthRequired}
    ensures Approach(s).life == if s.life == Connected then Connected else Connecting
  {
    var s1 := if s.open && s.life == CircuitOpen then Goto(s, Reconnecting) else s;
    GotoOnTable(s, Reconnecting);
    GotoOnTable(s1, Connecting);
  }

  lemma PassOnTable(c: Config, s: Sup, o: Outcome, u: real)
    ensures AllOnTable(Pass(c, s, o, u).trace) <==> AllOnTable(s.trace) && !LeavesTable(s.life, o)
  {
    var a := Approach(s);
    ApproachOnTable(s);
    if s.life != Connected {
      AwaitOnTable(c, a, o, u);
    }
  }

  lemma AwaitOnTable(c: Config, a: Sup, o: Outcome, u: real)
    requires a.life == Connecting
    ensures AllOnTable(AfterAwait(c, a, o, u).trace) <==> AllOnTable(a.trace) && !EndsOffTable(o)
  {
    var f := Awaited(a, o.found);
    match o
    case CameUp(_, _) => GotoOnTable(f, Connected);
    case CameBack(_, _) => GotoOnTable(f, Connected);
    case NeedsLogin(_) => GotoOnTable(f, AuthRequired);
    case OtherFailure(_, _) => GotoOnTable(f, Failed);
    case Interrupted(_) =>
    case ConnectionFailed(_, fc, _) =>
      GotoOnTable(f, Error);
      FailureOnTable(c, Goto(f, Error), fc, u);
  }

  /** The table gives no way from ERROR to a retry or to FAILED. */
  lemma FailureOnTable(c: Config, s: Sup, fc: FailureClass, u: real)
    requires s.life == Error
    ensures AllOnTable(Failure(c, s, fc, u).trace) <==> AllOnTable(s.trace) && fc == AUTH
  {
    GotoOnTable(s, Failed);
    GotoOnTable(s, CircuitOpen);
    GotoOnTable(s, Reconnecting);
  }

  /** Read off the starting state and the outcomes alone: no pass up to the first ending outcome leaves the table. */
  predicate StaysOnTable(life: Life, os: seq<Outcome>)
    decreases |os|
  {
    os == [] ||
    (!LeavesTable(life, os[0]) &&
     match AnswerIn(life, os[0])
     case CameUp(_, next) => StaysOnTable(next, os[1..])
     case CameBack(_, next) => StaysOnTable(next, os[1..])
     case _ => true)
  }

  /** The run after its first pass. */
  lemma {:induction false} RunFromSecond(c: Config, s: Sup, os: seq<Outcome>, us: seq<real>)
    requires |us| == |os| > 0
    ensures Run(c, s, os, us) == Run(c, if s.done then s else Pass(c, s, os[0], us[0]), os[1..], us[1..])
    decreases |os|
  {
    var n := |os| - 1;
    if n == 0 {
      assert os[..n] == [] && os[1..] == [];
    } else {
      RunFromSecond(c, s, os[..n], us[..n]);
      assert os[..n][1..] == os[1..][..n - 1] && us[..n][1..] == us[1..][..n - 1];
    }
  }

  /** A state change that left the table stays in the trace. */
  lemma {:induction false} TraceOnlyGrows(c: Config, s: Sup, os: seq<Outcome>, us: seq<real>)
    requires |us| == |os|
    ensures AllOnTable(Run(c, s, os, us).trace) ==> AllOnTable(s.trace)
    ensures s.done ==> Run(c, s, os, us) == s
  {
    if os != [] {
      var n := |os| - 1;
      TraceOnlyGrows(c, s, os[..n], us[..n]);
      PassOnTable(c, Run(c, s, os[..n], us[..n]), os[n], us[n]);
    }
  }

  lemma PassLife(c: Config, s: Sup, o: Outcome, u: real)
    requires !s.done
    ensures var a, p := Answer(s, o), Pass(c, s, o, u);
            && ((a.CameUp? || a.CameBack?) ==> !p.done && p.life == a.next)
            && (!LeavesTable(s.life, o) && !a.CameUp? && !a.CameBack? ==> p.done)
  {
    PassEnds(c, s, o, u);
  }

  /** A run stays on the designed table exactly when its starting state and its outcomes say so. */
  lemma {:induction false} RunOnTableIff(c: Config, s: Sup, os: seq<Outcome>, us: seq<real>)
    requires |us| == |os|
    ensures AllOnTable(Run(c, s, os, us).trace) <==> AllOnTable(s.trace) && (s.done || StaysOnTable(s.life, os))
    decreases |os|
  {
    TraceOnlyGrows(c, s, os, us);
    if os != [] && !s.done {
      var p := Pass(c, s, os[0], us[0]);
      RunFromSecond(c, s, os, us);
      PassOnTable(c, s, os[0], us[0]);
      PassLife(c, s, os[0], us[0]);
      RunOnTableIff(c, p, os[1..], us[1..]);
    }
  }

  /** A disconnect while an attempt is awaited is enough too, although every attempt succeeds. */
  lemma DisconnectDuringConnectLeavesTable(c: Config, life: Life, next: Life, u: real)
    requires life != Connected
    ensures !AllOnTable(Run(c, Start(life), [CameUp(Disconnected, next)], [u]).trace)
  {
    RunOnTableIff(c, Start(life), [CameUp(Disconnected, next)], [u]);
  }

  /** Every supervised retry leaves the table: one transient failure is enough. */
  lemma RetryLeavesTable(c: Config, s: Sup, os: seq<Outcome>, us: seq<real>, i: nat)
    requires |us| == |os| && i < |os| && !At(c, s, os, us, i).done
    requires At(c, s, os, us, i).life != Connected && IsTransient(os[i])
    ensures !AllOnTable(Run(c, s, os, us).trace)
  {
    RunStep(c, s, os, us, i);
    PassOnTable(c, At(c, s, os, us, i), os[i], us[i]);
    EarlierOnTable(c, s, os, us, i + 1);
  }

  lemma {:induction false} EarlierOnTable(c: Config, s: Sup, os: seq<Outcome>, us: seq<real>, i: nat)
    requires |us| == |os| && i <= |os|
    ensures AllOnTable(Run(c, s, os, us).trace) ==> AllOnTable(At(c, s, os, us, i).trace)
    decreases |os|
  {
    var n := |os| - 1;
    if i == |os| {
      assert os[..i] == os && us[..i] == us;
    } else {
      EarlierOnTable(c, s, os[..n], us[..n], i);
      assert os[..n][..i] == os[..i] && us[..n][..i] == us[..i];
      PassOnTable(c, Run(c, s, os[..n], us[..n]), os[n], us[n]);
    }
  }

  // ---------------------------------------------------------------------
  // What a failed attempt does
  // ---------------------------------------------------------------------

  lemma {:induction false} PowAdds(f: real, m: nat, n: nat)
    ensures Pow(f, m + n) == Pow(f, m) * Pow(f, n)
    ensures Pow(f, 1) == f && Pow(f, 0) == 1.0
  {
    if m > 0 {
      PowAdds(f, m - 1, n);
      Reassociate(f, Pow(f, m - 1), Pow(f, n));
    }
  }

  lemma Reassociate(a: real, b: real, c: real)
    ensures a * (b * c) == a * b * c
  {
  }

  /** The backoff is the draw's share of `min(max, base * factor ** attempt)`. */
  lemma BackoffIs(c: Config, attempt: nat, u: real)
    ensures var raw := c.base * Pow(c.factor, attempt);
            Backoff(c, attempt, u) == u * if raw <= c.max then raw else c.max
    ensures var raw := c.base * Pow(c.factor, attempt);
            Backoff(c, attempt, 1.0) == if raw <= c.max then raw else c.max
  {
  }

  /** A retry sleeps once: the maximal backoff while the breaker is open, and otherwise the backoff of its number
      in the failure run. Meanwhile the connection shows CIRCUIT_OPEN or RECONNECTING. */
  lemma RetrySleeps(c: Config, s: Sup, found: Life, next: Life, u: real)
    requires s.life != Connected && !s.done
    ensures var p, n := Pass(c, s, ConnectionFailed(found, TRANSIENT, next), u), s.failures + 1;
            && !p.done && p.failures == n && p.life == next
            && p.sleeps == s.sleeps + [if p.open then c.max else Backoff(c, n - 1, u)]
            && p.trace == Approach(s).trace + [(found, Error), (Error, if p.open then CircuitOpen else Reconnecting)]
  {
    ApproachKeeps(s);
    var e := Goto(Awaited(Approach(s), found), Error);
    TransientSleeps(c, e, u);
    assert e.trace == Approach(s).trace + [(found, Error)];
    assert [(found, Error)] + [(Error, CircuitOpen)] == [(found, Error), (Error, CircuitOpen)];
    assert [(found, Error)] + [(Error, Reconnecting)] == [(found, Error), (Error, Reconnecting)];
  }

  lemma TransientSleeps(c: Config, s: Sup, u: real)
    ensures var p, n := Transient(c, s, u), s.failures + 1;
            && p.done == s.done && p.failures == n
            && p.sleeps == s.sleeps + [if p.open then c.max else Backoff(c, n - 1, u)]
            && p.trace == s.trace + [(s.life, if p.open then CircuitOpen else Reconnecting)]
  {
  }

  /** A terminal failure ends the run in FAILED, an authentication failure in ERROR, without a sleep. */
  lemma EndingFailure(c: Config, s: Sup, found: Life, fc: FailureClass, next: Life, u: real)
    requires s.life != Connected && fc != TRANSIENT
    ensures var p := Pass(c, s, ConnectionFailed(found, fc, next), u);
            p.done && p.life == (if fc == TERMINAL then Failed else Error) && p.sleeps == s.sleeps
  {
    ApproachKeeps(s);
  }

  /** A success ends the failure run and sleeps nowhere; the state before it plays no part. */
  lemma SuccessfulAttempt(c: Config, s: Sup, found: Life, next: Life, u: real)
    ensures var p := Pass(c, s, CameUp(found, next), u);
            && p.failures == 0 && !p.open && !p.attention && p.restarts == s.restarts + 1 && p.cycles == s.cycles
            && p.life == next && p.sleeps == s.sleeps
  {
    ApproachKeeps(s);
  }

  /** An attempt that returns with the connection already moved on changes no counter and sleeps once. */
  lemma MovedOnAttempt(c: Config, s: Sup, found: Life, next: Life, u: real)
    requires s.life != Connected && !s.done
    ensures var p := Pass(c, s, CameBack(found, next), u);
            && !p.done && SameCounters(p, s) && p.life == next
            && p.sleeps == s.sleeps + [Backoff(c, s.failures, u)]
  {
    ApproachKeeps(s);
  }
}

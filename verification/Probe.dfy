/**
 Recognising that a backend hung up on the protocol probe, and the one-time
 fallback to the legacy handshake.  Exceptions form a finite, possibly cyclic
 graph keyed by identity.
 */
module Probe {
  import opened Prelude

  /** `closed`: the exception's text mentions "closed". */
  datatype Exc =
    | Group(members: seq<nat>)
    | Plain(closed: bool, cause: Option<nat>, context: Option<nat>)

  type Graph = map<nat, Exc>

  function Linked(o: Option<nat>): seq<nat> {
    if o.Some? then [o.value] else []
  }

  /** What the search pushes after visiting an exception. */
  function Successors(x: Exc): seq<nat> {
    match x
    case Group(members) => members
    case Plain(_, cause, context) => Linked(cause) + Linked(context)
  }

  ghost predicate Closed(g: Graph) {
    forall x :: x in g ==> Inside(g, Successors(g[x]))
  }

  ghost predicate Inside(g: Graph, xs: seq<nat>) {
    forall x :: x in xs ==> x in g
  }

  predicate Mentions(g: Graph, x: nat) {
    x in g && g[x].Plain? && g[x].closed
  }

  /** A walk through group members, and through causes and contexts of other exceptions. */
  ghost predicate Path(g: Graph, p: seq<nat>) {
    p != [] && p[0] in g && forall i :: 0 <= i < |p| - 1 ==> Edge(g, p[i], p[i + 1])
  }

  /** A group leads to its members, another exception to its cause and its context. */
  ghost predicate Edge(g: Graph, x: nat, y: nat) {
    && x in g && y in g
    && match g[x]
       case Group(members) => y in members
       case Plain(_, cause, context) => cause == Some(y) || context == Some(y)
  }

  ghost predicate Reaches(g: Graph, x: nat, y: nat) {
    exists p :: Path(g, p) && p[0] == x && p[|p| - 1] == y
  }

  lemma ReachesSelf(g: Graph, x: nat)
    requires x in g
    ensures Reaches(g, x, x)
  {
    assert Path(g, [x]);
  }

  lemma ReachesNext(g: Graph, x: nat, y: nat, z: nat)
    requires Reaches(g, x, y) && Edge(g, y, z)
    ensures Reaches(g, x, z)
  {
    var p :| Path(g, p) && p[0] == x && p[|p| - 1] == y;
    var q := p + [z];
    assert Path(g, q) && q[0] == x && q[|q| - 1] == z;
  }

  /** Everything reachable lies in a set that holds the start and is closed under successors. */
  lemma {:induction false} PathStays(g: Graph, p: seq<nat>, seen: set<nat>)
    requires Path(g, p) && p[0] in seen
    requires forall x, y :: x in seen && Edge(g, x, y) ==> y in seen
    ensures p[|p| - 1] in seen
  {
    if |p| > 1 {
      var n := |p| - 1;
      PathStays(g, p[..n], seen);
      assert Edge(g, p[n - 1], p[n]);
    }
  }

  /** Visited exceptions mention nothing and everything they lead to is visited or waiting. */
  ghost predicate Explored(g: Graph, seen: set<nat>, waiting: seq<nat>) {
    forall x :: x in seen ==> Settled(g, seen, waiting, x)
  }

  ghost predicate Settled(g: Graph, seen: set<nat>, waiting: seq<nat>, x: nat) {
    !Mentions(g, x) && forall y :: Edge(g, x, y) ==> y in seen || y in waiting
  }

  ghost predicate AllReached(g: Graph, e: nat, seen: set<nat>, stack: seq<nat>) {
    (forall x :: x in seen ==> x in g && Reaches(g, e, x)) && (forall x :: x in stack ==> x in g && Reaches(g, e, x))
  }

  /** The stack search answers exactly whether an exception mentioning "closed" is reachable, cycles or not. */
  method IsDiscoverProbeRejection(g: Graph, e: nat) returns (found: bool)
    requires Closed(g) && e in g
    ensures found <==> exists x :: Mentions(g, x) && Reaches(g, e, x)
  {
    var stack, seen: set<nat> := [e], {};
    ReachesSelf(g, e);
    while stack != []
      invariant AllReached(g, e, seen, stack) && Explored(g, seen, stack)
      invariant e in seen || e in stack
      decreases g.Keys - seen, |stack|
    {
      var current, rest := stack[|stack| - 1], stack[..|stack| - 1];
      assert stack == rest + [current];
      if current in seen {
        PopSeen(g, seen, stack);
        stack := rest;
        continue;
      }
      if Mentions(g, current) {
        return true;
      }
      VisitReached(g, e, seen, stack);
      VisitExplored(g, seen, stack);
      assert current in g.Keys - seen && current !in g.Keys - (seen + {current});
      seen := seen + {current};
      stack := PushLinked(rest, g[current]);
    }
    NothingReachable(g, e, seen);
    found := false;
  }

  method PushLinked(rest: seq<nat>, x: Exc) returns (stack: seq<nat>)
    ensures stack == rest + Successors(x)
  {
    stack := rest;
    if x.Group? {
      stack := stack + x.members;
      return;
    }
    if x.cause.Some? {
      stack := stack + [x.cause.value];
    }
    if x.context.Some? {
      stack := stack + [x.context.value];
    }
  }

  lemma PopSeen(g: Graph, seen: set<nat>, stack: seq<nat>)
    requires stack != [] && stack[|stack| - 1] in seen && Explored(g, seen, stack)
    ensures Explored(g, seen, stack[..|stack| - 1])
  {
    var rest := stack[..|stack| - 1];
    forall x | x in seen ensures Settled(g, seen, rest, x) {
      assert Settled(g, seen, stack, x);
      assert forall y :: y in stack ==> y in rest || y == stack[|stack| - 1];
    }
  }

  lemma VisitReached(g: Graph, e: nat, seen: set<nat>, stack: seq<nat>)
    requires Closed(g) && stack != [] && AllReached(g, e, seen, stack)
    ensures var x, rest := stack[|stack| - 1], stack[..|stack| - 1];
            AllReached(g, e, seen + {x}, rest + Successors(g[x]))
  {
    var x, rest := stack[|stack| - 1], stack[..|stack| - 1];
    assert x in stack && Inside(g, Successors(g[x]));
    forall y | y in Successors(g[x]) ensures y in g && Reaches(g, e, y) {
      ReachesNext(g, e, x, y);
    }
    forall y | y in rest ensures y in g && Reaches(g, e, y) {
      assert y in stack;
    }
  }

  lemma VisitExplored(g: Graph, seen: set<nat>, stack: seq<nat>)
    requires stack != [] && stack[|stack| - 1] in g && !Mentions(g, stack[|stack| - 1]) && Explored(g, seen, stack)
    ensures var x, rest := stack[|stack| - 1], stack[..|stack| - 1];
            Explored(g, seen + {x}, rest + Successors(g[x]))
  {
    var x, rest := stack[|stack| - 1], stack[..|stack| - 1];
    assert forall y :: y in stack ==> y in rest || y == x;
    forall z | z in seen + {x} ensures Settled(g, seen + {x}, rest + Successors(g[x]), z) {
      if z in seen {
        assert Settled(g, seen, stack, z);
      }
    }
  }

  lemma NothingReachable(g: Graph, e: nat, seen: set<nat>)
    requires e in seen && Explored(g, seen, [])
    ensures !exists x :: Mentions(g, x) && Reaches(g, e, x)
  {
    forall x, y | x in seen && Edge(g, x, y) ensures y in seen {
      assert Settled(g, seen, [], x);
    }
    forall x | Reaches(g, e, x) ensures !Mentions(g, x) {
      var p :| Path(g, p) && p[0] == e && p[|p| - 1] == x;
      PathStays(g, p, seen);
      assert Settled(g, seen, [], x);
    }
  }

  // ---------------------------------------------------------------------
  // Falling back
  // ---------------------------------------------------------------------

  /** How opening the transport and shaking hands goes. */
  datatype Attempt =
    | Opened
    | BuildFailed                                       // the SDK client could not be built
    | LoginNeeded                                       // OAuth flow error
    | OsFailed                                          // missing command or other OS error
    | OtherFailed(g: Graph, e: nat, oauthChained: bool) // anything else; it may carry an OAuth error

  datatype Result = Connected | AuthRequired | Refused

  ghost predicate Sound(a: Attempt) {
    a.OtherFailed? ==> a.e in a.g && Closed(a.g)
  }

  /** A failure that looks like the probe killing a legacy backend. */
  ghost predicate ProbeRejected(a: Attempt) {
    a.OtherFailed? && !a.oauthChained && exists x :: Mentions(a.g, x) && Reaches(a.g, a.e, x)
  }

  ghost function ResultOf(a: Attempt): Result {
    match a
    case Opened => Connected
    case BuildFailed => Refused
    case LoginNeeded => AuthRequired
    case OsFailed => Refused
    case OtherFailed(_, _, oauth) => if oauth then AuthRequired else Refused
  }

  /** `legacy` is the pinned handshake mode. */
  datatype Client = Client(legacy: bool, connected: bool, authRequired: bool)

  const NEW := Client(false, false, false)

  ghost predicate FallsBack(c: Client, a: Attempt) {
    !c.legacy && ProbeRejected(a)
  }

  /** One handshake and its exception handlers. */
  ghost function AfterHandshake(c: Client, a: Attempt): Client {
    Client(c.legacy || ProbeRejected(a), ResultOf(a).Connected?, c.authRequired || ResultOf(a).AuthRequired?)
  }

  /** `connect()`: the backend would answer the first handshake with `a` and a retry with `b`. */
  ghost function AfterConnect(c: Client, a: Attempt, b: Attempt): Client {
    if c.connected then c
    else if FallsBack(c, a) then AfterHandshake(AfterHandshake(c, a), b)
    else AfterHandshake(c, a)
  }

  ghost function HandshakesOf(c: Client, a: Attempt): nat {
    if c.connected then 0 else if FallsBack(c, a) then 2 else 1
  }

  class OutboundClient {
    var legacy: bool
    var connected: bool
    var authRequired: bool

    function View(): Client
      reads this
    {
      Client(legacy, connected, authRequired)
    }

    constructor ()
      ensures View() == NEW
    {
      legacy, connected, authRequired := false, false, false;
    }

    /** One handshake; `again` asks for the legacy retry. */
    method Handshake(a: Attempt) returns (r: Result, again: bool)
      requires Sound(a) && !connected
      modifies this
      ensures again == FallsBack(old(View()), a) && r == ResultOf(a)
      ensures View() == AfterHandshake(old(View()), a)
    {
      r, again := Refused, false;
      match a
      case Opened =>
        connected := true;
        r := Connected;
      case BuildFailed =>
      case LoginNeeded =>
        authRequired := true;
        r := AuthRequired;
      case OsFailed =>
      case OtherFailed(g, e, oauthChained) =>
        if oauthChained {
          authRequired := true;
          r := AuthRequired;
        } else if !legacy {
          again := IsDiscoverProbeRejection(g, e);
          legacy := legacy || again;
        }
    }

    method Connect(a: Attempt, b: Attempt) returns (r: Result, handshakes: nat)
      requires Sound(a) && Sound(b)
      modifies this
      ensures View() == AfterConnect(old(View()), a, b) && handshakes == HandshakesOf(old(View()), a)
      ensures r == if handshakes == 0 then Connected else ResultOf(if handshakes == 1 then a else b)
      ensures connected == r.Connected? && authRequired == (old(authRequired) || r.AuthRequired?)
      ensures var last := if handshakes == 2 then b else a;
              handshakes > 0 ==> (r.Connected? <==> last.Opened?) &&
                                 (r.AuthRequired? <==> last.LoginNeeded? || (last.OtherFailed? && last.oauthChained))
    {
      if connected {
        return Connected, 0;
      }
      var again: bool;
      r, again := Handshake(a);
      handshakes := 1;
      if again {
        r, again := Handshake(b);
        handshakes := 2;
      }
    }

    method Disconnect()
      modifies this
      ensures View() == old(View()).(connected := false)
    {
      connected := false;
    }

    /** Any number of connects and disconnects of one client. */
    method Serve(uses: seq<Use>) returns (handshakes: nat)
      requires forall i :: 0 <= i < |uses| ==> Sound(uses[i].first) && Sound(uses[i].second)
      modifies this
      ensures old(View()) == NEW ==> View() == AfterUses(uses) && handshakes == Handshakes(uses)
    {
      handshakes := 0;
      for i := 0 to |uses|
        invariant old(View()) == NEW ==> View() == AfterUses(uses[..i]) && handshakes == Handshakes(uses[..i])
      {
        assert uses[..i + 1][..i] == uses[..i];
        var r, n := Connect(uses[i].first, uses[i].second);
        handshakes := handshakes + n;
        if uses[i].disconnects {
          Disconnect();
        }
      }
      assert uses[..|uses|] == uses;
    }
  }

  // --- A client's whole life ----------------------------------------------

  /** One connect() with the answers the backend would give, and whether a disconnect() follows. */
  datatype Use = Use(first: Attempt, second: Attempt, disconnects: bool)

  ghost function AfterUse(c: Client, u: Use): Client {
    var c1 := AfterConnect(c, u.first, u.second);
    if u.disconnects then c1.(connected := false) else c1
  }

  ghost function AfterUses(uses: seq<Use>): Client {
    if uses == [] then NEW else AfterUse(AfterUses(uses[..|uses| - 1]), uses[|uses| - 1])
  }

  ghost function Handshakes(uses: seq<Use>): nat {
    if uses == [] then 0
    else Handshakes(uses[..|uses| - 1]) + HandshakesOf(AfterUses(uses[..|uses| - 1]), uses[|uses| - 1].first)
  }

  /** The uses that found the client unconnected. */
  ghost function Dialling(uses: seq<Use>): seq<Use> {
    if uses == [] then []
    else
      var init, u := uses[..|uses| - 1], uses[|uses| - 1];
      if AfterUses(init).connected then Dialling(init) else Dialling(init) + [u]
  }

  ghost predicate SomeRejected(uses: seq<Use>) {
    exists i :: 0 <= i < |uses| && ProbeRejected(uses[i].first)
  }

  lemma RejectedSnoc(uses: seq<Use>, u: Use)
    ensures SomeRejected(uses + [u]) <==> SomeRejected(uses) || ProbeRejected(u.first)
  {
    if SomeRejected(uses) {
      var i :| 0 <= i < |uses| && ProbeRejected(uses[i].first);
      assert (uses + [u])[i] == uses[i];
    }
    assert (uses + [u])[|uses|] == u;
  }

  /** Over a client's whole life each connect() of an unconnected client costs one handshake, and there is one
      more in all exactly when the probe of such a connect was ever rejected; the mode is then legacy for good. */
  lemma {:induction false} FallsBackOnce(uses: seq<Use>)
    ensures AfterUses(uses).legacy <==> SomeRejected(Dialling(uses))
    ensures Handshakes(uses) == |Dialling(uses)| + if SomeRejected(Dialling(uses)) then 1 else 0
  {
    if uses != [] {
      var init, u := uses[..|uses| - 1], uses[|uses| - 1];
      FallsBackOnce(init);
      RejectedSnoc(Dialling(init), u);
    }
  }
}

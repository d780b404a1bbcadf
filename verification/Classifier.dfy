/**
 Classifying a connect failure by walking its cause chain.  Exceptions are nodes
 of a finite, possibly cyclic graph; a node's key is its identity.
 */
module Classifier {
  import opened Prelude

  datatype FailureClass = TRANSIENT | AUTH | TERMINAL

  /** `auth`, `terminal` and `transient` are the three isinstance tests. */
  datatype Exc = Exc(auth: bool, terminal: bool, transient: bool,
                     cause: Option<nat>, context: Option<nat>, suppress: bool)

  type Graph = map<nat, Exc>

  const MAX_DEPTH: nat := 20

  ghost predicate Closed(g: Graph) {
    forall e :: e in g ==> LinksWithin(g, g[e])
  }

  ghost predicate LinksWithin(g: Graph, x: Exc) {
    (x.cause.Some? ==> x.cause.value in g) && (x.context.Some? ==> x.context.value in g)
  }

  /** The explicit cause, else the context unless suppressed. */
  function Next(x: Exc): Option<nat> {
    if x.cause.Some? then x.cause else if !x.suppress then x.context else None
  }

  /** The chain continued from `current` after `seen`. */
  function Walk(g: Graph, current: Option<nat>, seen: seq<nat>): seq<nat>
    decreases MAX_DEPTH - |seen|
  {
    if current.None? || |seen| >= MAX_DEPTH || current.value !in g || current.value in seen then seen
    else Walk(g, Next(g[current.value]), seen + [current.value])
  }

  function Chain(g: Graph, e: nat): seq<nat> {
    Walk(g, Some(e), [])
  }

  predicate AnyAuth(g: Graph, chain: seq<nat>) {
    exists i :: 0 <= i < |chain| && IsAuth(g, chain[i])
  }

  predicate IsAuth(g: Graph, e: nat) {
    e in g && g[e].auth
  }

  predicate IsTerminal(g: Graph, e: nat) {
    e in g && g[e].terminal
  }

  predicate AnyTerminal(g: Graph, chain: seq<nat>) {
    exists i :: 0 <= i < |chain| && IsTerminal(g, chain[i])
  }

  /** Authentication first, then terminal types; everything else is worth a retry. */
  function Verdict(g: Graph, chain: seq<nat>): FailureClass {
    if AnyAuth(g, chain) then AUTH else if AnyTerminal(g, chain) then TERMINAL else TRANSIENT
  }

  function Classify(g: Graph, e: nat): FailureClass {
    Verdict(g, Chain(g, e))
  }

  /** `_cause_chain`. */
  method CauseChain(g: Graph, e: nat) returns (seen: seq<nat>)
    requires Closed(g) && e in g
    ensures seen == Chain(g, e)
  {
    seen := [];
    var seenIds: set<nat> := {};
    var current: Option<nat> := Some(e);
    while current.Some? && |seen| < MAX_DEPTH
      invariant current.Some? ==> current.value in g
      invariant forall x :: x in seenIds <==> x in seen
      invariant Walk(g, current, seen) == Chain(g, e)
      decreases MAX_DEPTH - |seen|
    {
      var id := current.value;
      if id in seenIds {
        break;
      }
      seen := seen + [id];
      seenIds := seenIds + {id};
      if g[id].cause.Some? {
        current := g[id].cause;
      } else if g[id].context.Some? && !g[id].suppress {
        current := g[id].context;
      } else {
        current := None;
      }
    }
  }

  /** `classify_failure` with its three scans of the chain. */
  method ClassifyFailure(g: Graph, e: nat) returns (fc: FailureClass)
    requires Closed(g) && e in g
    ensures fc == Classify(g, e)
    ensures fc == AUTH <==> exists x :: x in Chain(g, e) && x in g && g[x].auth
    ensures fc == TERMINAL <==>
            && (forall x :: x in Chain(g, e) && x in g ==> !g[x].auth)
            && exists x :: x in Chain(g, e) && x in g && g[x].terminal
  {
    VerdictMeans(g, Chain(g, e));
    var chain := CauseChain(g, e);
    var auth, terminal := false, false;
    for i := 0 to |chain|
      invariant auth <==> exists k :: 0 <= k < i && IsAuth(g, chain[k])
      invariant terminal <==> exists k :: 0 <= k < i && IsTerminal(g, chain[k])
    {
      auth, terminal := auth || IsAuth(g, chain[i]), terminal || IsTerminal(g, chain[i]);
    }
    fc := if auth then AUTH else if terminal then TERMINAL else TRANSIENT;
  }

  /** One authentication error anywhere decides; without one, one terminal error does. */
  lemma VerdictMeans(g: Graph, chain: seq<nat>)
    ensures Verdict(g, chain) == AUTH <==> exists x :: x in chain && x in g && g[x].auth
    ensures Verdict(g, chain) == TERMINAL <==>
            && (forall x :: x in chain && x in g ==> !g[x].auth)
            && exists x :: x in chain && x in g && g[x].terminal
  {
    if AnyAuth(g, chain) {
      var i :| 0 <= i < |chain| && IsAuth(g, chain[i]);
      assert chain[i] in chain;
    } else {
      forall x | x in chain && x in g ensures !g[x].auth {
        var i :| 0 <= i < |chain| && chain[i] == x;
        assert !IsAuth(g, chain[i]);
      }
    }
    if AnyTerminal(g, chain) {
      var i :| 0 <= i < |chain| && IsTerminal(g, chain[i]);
      assert chain[i] in chain;
    } else {
      forall x | x in chain && x in g ensures !g[x].terminal {
        var i :| 0 <= i < |chain| && chain[i] == x;
        assert !IsTerminal(g, chain[i]);
      }
    }
  }

  // ---------------------------------------------------------------------
  // What the walk collects
  // ---------------------------------------------------------------------

  /** The exception raised from is followed before the one merely being handled, which `from None` hides. */
  ghost predicate Follows(x: Exc, y: nat) {
    x.cause == Some(y) || (x.cause == None && x.context == Some(y) && !x.suppress)
  }

  lemma NextFollows(x: Exc)
    ensures forall y: nat :: Next(x) == Some(y) <==> Follows(x, y)
    ensures Next(x) == None <==> x.cause == None && (x.context == None || x.suppress)
  {
  }

  /** Entry `i + 1` follows from entry `i`. */
  ghost predicate Linked(g: Graph, chain: seq<nat>) {
    && (forall i :: 0 <= i < |chain| ==> chain[i] in g)
    && (forall i :: 0 <= i < |chain| - 1 ==> Next(g[chain[i]]) == Some(chain[i + 1]))
  }

  ghost predicate NoRepeat(chain: seq<nat>) {
    forall i, j :: 0 <= i < j < |chain| ==> chain[i] != chain[j]
  }

  /** Nothing more could be added: the bound, the end of the chain or a repetition was reached. */
  ghost predicate Maximal(g: Graph, chain: seq<nat>)
    requires chain != [] && Linked(g, chain)
  {
    var last := Next(g[chain[|chain| - 1]]);
    |chain| == MAX_DEPTH || last.None? || last.value in chain
  }

  lemma {:induction false} WalkFacts(g: Graph, current: Option<nat>, seen: seq<nat>)
    requires Closed(g) && Linked(g, seen) && NoRepeat(seen) && |seen| <= MAX_DEPTH
    requires seen == [] ==> current.Some?
    requires current.Some? ==> current.value in g
    requires seen != [] ==> Next(g[seen[|seen| - 1]]) == current
    ensures var chain := Walk(g, current, seen);
            && chain != [] && Linked(g, chain) && NoRepeat(chain) && |chain| <= MAX_DEPTH && Maximal(g, chain)
            && seen <= chain && chain[0] == (if seen == [] then current.value else seen[0])
    decreases MAX_DEPTH - |seen|
  {
    if current.Some? && |seen| < MAX_DEPTH && current.value !in seen {
      WalkFacts(g, Next(g[current.value]), seen + [current.value]);
    }
  }

  /** The chain starts at the exception, follows causes without repetition, and stops only
      at its end, at a cycle, or at twenty entries. */
  lemma ChainFacts(g: Graph, e: nat)
    requires Closed(g) && e in g
    ensures var chain := Chain(g, e);
            && chain != [] && chain[0] == e && Linked(g, chain) && NoRepeat(chain)
            && |chain| <= 20 && Maximal(g, chain)
    ensures var chain := Chain(g, e);
            forall i :: 0 <= i < |chain| - 1 ==> Follows(g[chain[i]], chain[i + 1])
    ensures var chain := Chain(g, e);
            |chain| < 20 ==> forall y: nat :: Follows(g[chain[|chain| - 1]], y) ==> y in chain
  {
    forall x: Exc ensures forall y: nat :: Next(x) == Some(y) <==> Follows(x, y) {
      NextFollows(x);
    }
    WalkFacts(g, Some(e), []);
  }

  // ---------------------------------------------------------------------
  // Wrapping: raise ConnectionError from e
  // ---------------------------------------------------------------------

  /** `h` adds to `g` the exceptions `ws`, each a ConnectionError raised from the next and the last from `e`. */
  ghost predicate Wraps(g: Graph, e: nat, h: Graph, ws: seq<nat>) {
    && NoRepeat(ws) && (forall x :: x in g ==> x in h && h[x] == g[x])
    && forall i :: 0 <= i < |ws| ==> WrapAt(g, e, h, ws, i)
  }

  ghost predicate WrapAt(g: Graph, e: nat, h: Graph, ws: seq<nat>, i: nat)
    requires i < |ws|
  {
    ws[i] !in g && ws[i] in h && Wrapper(h[ws[i]], if i + 1 < |ws| then ws[i + 1] else e)
  }

  ghost predicate Wrapper(x: Exc, of: nat) {
    !x.auth && !x.terminal && x.transient && x.cause == Some(of)
  }

  ghost function Top(e: nat, ws: seq<nat>): nat {
    if ws == [] then e else ws[0]
  }

  /** Walking through the wrappers reaches `e` having seen them all, or the bound. */
  lemma {:induction false} WalkWrappers(g: Graph, e: nat, h: Graph, ws: seq<nat>, k: nat)
    requires Closed(g) && e in g && Wraps(g, e, h, ws) && k <= |ws| && k <= MAX_DEPTH
    ensures Chain(h, Top(e, ws)) == Walk(h, Some(if k < |ws| then ws[k] else e), ws[..k])
  {
    if k > 0 {
      WalkWrappers(g, e, h, ws, k - 1);
      assert ws[..k - 1] + [ws[k - 1]] == ws[..k];
      assert WrapAt(g, e, h, ws, k - 1);
    }
  }

  /** From inside `g` the walk in `h` with extra entries in front is the walk in `g`, cut at the bound. */
  lemma {:induction false} WalkBehind(g: Graph, h: Graph, ws: seq<nat>, current: Option<nat>, seen: seq<nat>)
    requires Closed(g) && (forall x :: x in g ==> x in h && h[x] == g[x])
    requires (forall x :: x in ws ==> x !in g) && (current.Some? ==> current.value in g)
    requires |ws| + |seen| <= MAX_DEPTH
    ensures seen <= Walk(g, current, seen)
    ensures var all := ws + Walk(g, current, seen);
            Walk(h, current, ws + seen) == all[..Min(MAX_DEPTH, |all|)]
    decreases MAX_DEPTH - |seen|
  {
    var all := Walk(g, current, seen);
    if current.None? || current.value in seen {
      assert (ws + all)[..|ws| + |all|] == ws + all;
    } else if |ws| + |seen| == MAX_DEPTH {
      WalkExtends(g, current, seen);
      assert (ws + all)[..MAX_DEPTH] == ws + seen;
    } else {
      assert (ws + seen) + [current.value] == ws + (seen + [current.value]);
      WalkBehind(g, h, ws, Next(g[current.value]), seen + [current.value]);
    }
  }

  lemma {:induction false} WalkExtends(g: Graph, current: Option<nat>, seen: seq<nat>)
    ensures seen <= Walk(g, current, seen)
    decreases MAX_DEPTH - |seen|
  {
    if !(current.None? || |seen| >= MAX_DEPTH || current.value !in g || current.value in seen) {
      WalkExtends(g, Next(g[current.value]), seen + [current.value]);
    }
  }

  /** Wrapping puts the wrappers in front of the chain and cuts the result at twenty, cycles or not. */
  lemma WrappedChain(g: Graph, e: nat, h: Graph, ws: seq<nat>)
    requires Closed(g) && e in g && Wraps(g, e, h, ws)
    ensures var all := ws + Chain(g, e);
            Chain(h, Top(e, ws)) == all[..Min(MAX_DEPTH, |all|)]
  {
    var all := ws + Chain(g, e);
    if |ws| <= MAX_DEPTH {
      WalkWrappers(g, e, h, ws, |ws|);
      forall x | x in ws ensures x !in g {
        var i :| 0 <= i < |ws| && ws[i] == x;
        assert WrapAt(g, e, h, ws, i);
      }
      assert ws[..|ws|] == ws + [];
      WalkBehind(g, h, ws, Some(e), []);
    } else {
      WalkWrappers(g, e, h, ws, MAX_DEPTH);
      assert all[..MAX_DEPTH] == ws[..MAX_DEPTH];
    }
  }

  /** Position of the first entry that settles the class of a non-transient chain. */
  ghost predicate Decides(g: Graph, e: nat, i: nat) {
    var chain := Chain(g, e);
    && i < |chain|
    && (match Classify(g, e)
        case AUTH => IsAuth(g, chain[i]) && forall j :: 0 <= j < i ==> !IsAuth(g, chain[j])
        case TERMINAL => IsTerminal(g, chain[i]) && forall j :: 0 <= j < i ==> !IsTerminal(g, chain[j])
        case TRANSIENT => false)
  }

  lemma {:induction false} FirstAuth(g: Graph, chain: seq<nat>) returns (i: nat)
    requires AnyAuth(g, chain)
    ensures i < |chain| && IsAuth(g, chain[i])
    ensures forall j :: 0 <= j < i ==> !IsAuth(g, chain[j])
  {
    i :| i < |chain| && IsAuth(g, chain[i]);
    if AnyAuth(g, chain[..i]) {
      i := FirstAuth(g, chain[..i]);
    } else {
      assert forall j :: 0 <= j < i ==> chain[..i][j] == chain[j];
    }
  }

  lemma {:induction false} FirstTerminal(g: Graph, chain: seq<nat>) returns (i: nat)
    requires AnyTerminal(g, chain)
    ensures i < |chain| && IsTerminal(g, chain[i])
    ensures forall j :: 0 <= j < i ==> !IsTerminal(g, chain[j])
  {
    i :| i < |chain| && IsTerminal(g, chain[i]);
    if AnyTerminal(g, chain[..i]) {
      i := FirstTerminal(g, chain[..i]);
    } else {
      assert forall j :: 0 <= j < i ==> chain[..i][j] == chain[j];
    }
  }

  /** Re-raising as a ConnectionError any number of times keeps the class exactly when the class is
      TRANSIENT or the deciding exception is still within the first twenty entries. */
  lemma WrappingKeepsClassIff(g: Graph, e: nat, h: Graph, ws: seq<nat>)
    requires Closed(g) && e in g && Wraps(g, e, h, ws)
    ensures Classify(h, Top(e, ws)) == Classify(g, e) <==>
            Classify(g, e) == TRANSIENT || exists i :: Decides(g, e, i) && |ws| + i < MAX_DEPTH
  {
    var chain, n := Chain(g, e), |ws|;
    var all := ws + chain;
    var cut := all[..Min(MAX_DEPTH, |all|)];
    WrappedChain(g, e, h, ws);
    ChainFacts(g, e);
    forall k | 0 <= k < |cut|
      ensures IsAuth(h, cut[k]) <==> n <= k && IsAuth(g, chain[k - n])
      ensures IsTerminal(h, cut[k]) <==> n <= k && IsTerminal(g, chain[k - n])
    {
      if k < n {
        assert WrapAt(g, e, h, ws, k);
      }
    }
    match Classify(g, e)
    case TRANSIENT =>
    case AUTH =>
      var i := FirstAuth(g, chain);
      assert Decides(g, e, i);
      assert n + i < MAX_DEPTH ==> IsAuth(h, cut[n + i]);
      assert forall j :: Decides(g, e, j) ==> j == i;
    case TERMINAL =>
      var i := FirstTerminal(g, chain);
      assert Decides(g, e, i);
      assert n + i < MAX_DEPTH ==> IsTerminal(h, cut[n + i]);
      assert forall j :: Decides(g, e, j) ==> j == i;
  }
}

/**
 Resuming a dropped streaming call once, and only with a token the backend
 handed out.  The backend is adversarial: each upstream call may send any tokens
 and end in any way.
 */
module Resume {
  import opened Prelude

  datatype End =
    | Returned(value: string)
    | McpError(connectionClosed: bool)
    | ResumptionError
    | OtherError
    | Interrupted                       // cancelled

  /** The tokens a call delivers before it ends. */
  datatype Behaviour = Behaviour(tokens: seq<string>, end: End)

  /** Where the caller is cut off outside of an upstream call: while the token is being read. */
  datatype Cut = Nowhere | BeforeFirst | BeforeSecond

  predicate TransportDrop(e: End) {
    (e.McpError? && e.connectionClosed) || e.ResumptionError?
  }

  /** The token held after a call: the last one delivered, or the one held before. */
  function LatestToken(held: Option<string>, tokens: seq<string>): Option<string> {
    if tokens == [] then held else Some(tokens[|tokens| - 1])
  }

  /** The tokens sent upstream, one per call. */
  function UpstreamCalls(held: Option<string>, first: Behaviour, cut: Cut): (calls: seq<Option<string>>)
    ensures |calls| <= 2 && (calls == [] <==> cut.BeforeFirst?)
    ensures calls != [] ==> calls[0] == held
    ensures |calls| == 2 <==>
            && cut.Nowhere? && (first.end == McpError(true) || first.end == ResumptionError)
            && (held.Some? || first.tokens != [])
    ensures |calls| == 2 ==> calls[1] == if first.tokens == [] then held else Some(first.tokens[|first.tokens| - 1])
  {
    if cut.BeforeFirst? then []
    else
      var latest := LatestToken(held, first.tokens);
      if TransportDrop(first.end) && latest.Some? && !cut.BeforeSecond? then [held, latest] else [held]
  }

  /** How the whole ends: as the last call made did, or cut off while a token was being read. */
  function FinalEnd(held: Option<string>, first: Behaviour, second: Behaviour, cut: Cut): (end: End)
    ensures |UpstreamCalls(held, first, cut)| == 2 ==> end == second.end
    ensures var cutOff := cut.BeforeSecond? && (first.end == McpError(true) || first.end == ResumptionError);
            |UpstreamCalls(held, first, cut)| == 1 ==> end == if cutOff then Interrupted else first.end
    ensures cut.BeforeFirst? ==> end == Interrupted
  {
    if cut.BeforeFirst? then Interrupted
    else if !TransportDrop(first.end) then first.end
    else if cut.BeforeSecond? then Interrupted
    else if LatestToken(held, first.tokens).None? then first.end
    else second.end
  }

  class TokenPersistence {
    var tokens: map<string, string>

    constructor ()
      ensures tokens == map[]
    {
      tokens := map[];
    }
  }

  class ResumableCallContext {
    const callId: string
    const persistence: TokenPersistence
    var currentToken: Option<string>
    var loaded: bool

    constructor (id: string, p: TokenPersistence)
      ensures callId == id && persistence == p && !loaded && currentToken == None
    {
      callId, persistence := id, p;
      currentToken, loaded := None, false;
    }

    /** The token a reader would be given now. */
    function Held(): Option<string>
      reads this, persistence
    {
      if loaded then currentToken
      else if callId in persistence.tokens then Some(persistence.tokens[callId])
      else None
    }

    method GetToken() returns (token: Option<string>)
      modifies this
      ensures token == old(Held()) && Held() == token && loaded
    {
      if !loaded {
        currentToken := if callId in persistence.tokens then Some(persistence.tokens[callId]) else None;
        loaded := true;
      }
      token := currentToken;
    }

    method OnTokenUpdate(token: string)
      modifies this, persistence
      ensures Held() == Some(token) && loaded
      ensures persistence.tokens == old(persistence.tokens)[callId := token]
    {
      currentToken, loaded := Some(token), true;
      persistence.tokens := persistence.tokens[callId := token];
    }

    method Clear()
      modifies this, persistence
      ensures currentToken == None && loaded && Held() == None
      ensures persistence.tokens == old(persistence.tokens) - {callId}
    {
      currentToken, loaded := None, true;
      persistence.tokens := persistence.tokens - {callId};
    }
  }

  /** Other calls' tokens are untouched. */
  ghost predicate OthersKept(before: map<string, string>, after: map<string, string>, callId: string) {
    after - {callId} == before - {callId}
  }

  /** An upstream call: its tokens arrive through the callback, then it ends. */
  method CallToolStreaming(ctx: ResumableCallContext, b: Behaviour) returns (end: End)
    requires ctx.loaded
    modifies ctx, ctx.persistence
    ensures ctx.loaded && ctx.Held() == LatestToken(old(ctx.Held()), b.tokens) && end == b.end
    ensures OthersKept(old(ctx.persistence.tokens), ctx.persistence.tokens, ctx.callId)
  {
    for i := 0 to |b.tokens|
      invariant ctx.loaded && ctx.Held() == LatestToken(old(ctx.Held()), b.tokens[..i])
      invariant OthersKept(old(ctx.persistence.tokens), ctx.persistence.tokens, ctx.callId)
    {
      ctx.OnTokenUpdate(b.tokens[i]);
    }
    assert b.tokens[..|b.tokens|] == b.tokens;
    end := b.end;
  }

  /** At most two upstream calls are made; the second exactly when the first was a transport drop with a
      token held, and it carries the latest token; on every exit the context holds no token. */
  method RunWithSafeResume(ctx: ResumableCallContext, first: Behaviour, second: Behaviour, cut: Cut)
    returns (end: End, calls: seq<Option<string>>)
    modifies ctx, ctx.persistence
    ensures calls == UpstreamCalls(old(ctx.Held()), first, cut)
    ensures end == FinalEnd(old(ctx.Held()), first, second, cut)
    ensures first.end == McpError(false) || first.end.Returned? ==> |calls| <= 1
    ensures ctx.loaded && ctx.Held() == None && ctx.callId !in ctx.persistence.tokens
    ensures OthersKept(old(ctx.persistence.tokens), ctx.persistence.tokens, ctx.callId)
  {
    end, calls := Attempts(ctx, first, second, cut);
    ctx.Clear();
  }

  /** The `try` block: the call and its one resumption. */
  method Attempts(ctx: ResumableCallContext, first: Behaviour, second: Behaviour, cut: Cut)
    returns (end: End, calls: seq<Option<string>>)
    modifies ctx, ctx.persistence
    ensures calls == UpstreamCalls(old(ctx.Held()), first, cut)
    ensures end == FinalEnd(old(ctx.Held()), first, second, cut)
    ensures OthersKept(old(ctx.persistence.tokens), ctx.persistence.tokens, ctx.callId)
  {
    if cut.BeforeFirst? {
      return Interrupted, [];
    }
    var token := ctx.GetToken();
    calls := [token];
    end := CallToolStreaming(ctx, first);
    if !(end.McpError? || end.ResumptionError?) || (end.McpError? && !end.connectionClosed) {
      return;
    }
    if cut.BeforeSecond? {
      end := Interrupted;
      return;
    }
    token := ctx.GetToken();
    if token.None? {
      return;
    }
    calls := calls + [token];
    end := CallToolStreaming(ctx, second);
  }
}

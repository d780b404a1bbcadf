/**
 Resumable event store: bounded per-stream ring buffers that share one id
 counter, lazy expiry, a cap on the number of streams, and the two-pass replay
 used to resume a client after `Last-Event-ID`.

 Ids are modelled by the integers they denote and `time.monotonic()` by a
 `now: real` argument.  `StoreStep` and `ReplayStep` give the effect of one
 locked section; a `World` pairs the store with the log of every event it ever
 issued, and the theorems range over every run of operations.
 */
module EventStore {
  import opened Prelude

  type StreamId = string
  type Message = string

  /** `message == None` is a priming event. */
  datatype Event = Event(id: int, message: Option<Message>)

  datatype Record = Record(sid: StreamId, events: seq<Event>, createdAt: real, lastEventAt: real)

  datatype Config = Config(maxEvents: nat, maxStreams: int, ttl: real)

  /** `streams` is the insertion-ordered dict of records. */
  datatype State = State(streams: seq<Record>, nextId: nat)

  datatype Issued = Issued(sid: StreamId, event: Event)

  datatype World = World(state: State, log: seq<Issued>)

  datatype Op =
    | StoreOp(sid: StreamId, message: Option<Message>, now: real)
    | ReplayOp(target: Option<int>, now: real)

  datatype Answer = Answer(found: Option<StreamId>, sent: seq<Event>)

  // ---------------------------------------------------------------------
  // One locked section of store_event
  // ---------------------------------------------------------------------

  /** A `deque(maxlen=cap)` after its content became `events`. */
  function Ring(cap: nat, events: seq<Event>): (r: seq<Event>)
    ensures |r| == Min(cap, |events|)
    ensures IsSuffix(r, events)
  {
    if |events| <= cap then events else events[|events| - cap..]
  }

  ghost predicate IsSuffix(s: seq<Event>, full: seq<Event>) {
    |s| <= |full| && full[|full| - |s|..] == s
  }

  predicate Expired(r: Record, cfg: Config, now: real) {
    r.lastEventAt < now - cfg.ttl
  }

  function Prune(streams: seq<Record>, cfg: Config, now: real): (kept: seq<Record>)
    ensures forall r :: r in kept <==> r in streams && !Expired(r, cfg, now)
  {
    if streams == [] then []
    else if Expired(streams[0], cfg, now) then Prune(streams[1..], cfg, now)
    else [streams[0]] + Prune(streams[1..], cfg, now)
  }

  /** Position of the record for `sid`, or the number of records. */
  function IndexOf(streams: seq<Record>, sid: StreamId): (i: nat)
    ensures i <= |streams|
    ensures i < |streams| ==> streams[i].sid == sid
    ensures forall j :: 0 <= j < i ==> streams[j].sid != sid
  {
    if streams == [] || streams[0].sid == sid then 0 else 1 + IndexOf(streams[1..], sid)
  }

  /** `_get_or_create_stream`; None is the StopIteration raised when a cap
      below one meets an empty dict. */
  function GetOrCreate(streams: seq<Record>, cfg: Config, sid: StreamId, now: real): Option<seq<Record>> {
    if IndexOf(streams, sid) < |streams| then Some(streams)
    else
      var created := Record(sid, [], now, now);
      if |streams| < cfg.maxStreams then Some(streams + [created])
      else if streams == [] then None
      else Some(streams[1..] + [created])
  }

  function Append(streams: seq<Record>, cfg: Config, sid: StreamId, e: Event, now: real): seq<Record>
    requires IndexOf(streams, sid) < |streams|
  {
    var i := IndexOf(streams, sid);
    var r := streams[i];
    streams[i := r.(events := Ring(cfg.maxEvents, r.events + [e]), lastEventAt := now)]
  }

  function StoreStep(cfg: Config, s: State, sid: StreamId, message: Option<Message>, now: real): (State, Option<int>)
  {
    var kept := Prune(s.streams, cfg, now);
    match GetOrCreate(kept, cfg, sid, now)
    case None => (s.(streams := kept), None)
    case Some(held) =>
      LastIsHeld(kept, cfg, sid, now);
      (State(Append(held, cfg, sid, Event(s.nextId, message), now), s.nextId + 1), Some(s.nextId))
  }

  lemma LastIsHeld(streams: seq<Record>, cfg: Config, sid: StreamId, now: real)
    ensures var g := GetOrCreate(streams, cfg, sid, now);
            g.Some? ==> IndexOf(g.value, sid) < |g.value|
  {
    var g := GetOrCreate(streams, cfg, sid, now);
    if g.Some? && IndexOf(streams, sid) == |streams| {
      assert g.value[|g.value| - 1].sid == sid;
    }
  }

  // ---------------------------------------------------------------------
  // One locked section of replay_events_after
  // ---------------------------------------------------------------------

  predicate HasId(events: seq<Event>, t: int) {
    exists i :: 0 <= i < |events| && events[i].id == t
  }

  /** Events after `t` that are handed to the callback. */
  function Deliver(events: seq<Event>, t: int): (sent: seq<Event>) {
    if events == [] then []
    else if events[0].id > t && events[0].message.Some? then [events[0]] + Deliver(events[1..], t)
    else Deliver(events[1..], t)
  }

  /** First record that buffers id `t`, or the number of records. */
  function Holder(streams: seq<Record>, t: int): (i: nat)
    ensures i <= |streams|
    ensures i < |streams| ==> HasId(streams[i].events, t)
    ensures forall j :: 0 <= j < i ==> !HasId(streams[j].events, t)
  {
    if streams == [] || HasId(streams[0].events, t) then 0 else 1 + Holder(streams[1..], t)
  }

  predicate Younger(r: Record, t: int) {
    r.events != [] && r.events[0].id > t
  }

  /** Positions, in order, of the records whose whole buffer is after `t`. */
  function Candidates(streams: seq<Record>, t: int, n: nat): (c: seq<nat>)
    requires n <= |streams|
    ensures forall i :: i in c <==> 0 <= i < n && Younger(streams[i], t)
    ensures forall a, b :: 0 <= a < b < |c| ==> c[a] != c[b]
  {
    if n == 0 then []
    else
      var c := Candidates(streams, t, n - 1);
      if Younger(streams[n - 1], t) then c + [n - 1] else c
  }

  /** The record replay selects: by exact id, else the only younger one. */
  function Selected(streams: seq<Record>, t: int): (i: Option<nat>)
    ensures i.Some? ==> i.value < |streams|
  {
    var h := Holder(streams, t);
    var c := Candidates(streams, t, |streams|);
    if h < |streams| then Some(h) else if |c| == 1 then assert c[0] in c; Some(c[0]) else None
  }

  function ReplayStep(s: State, target: Option<int>, now: real): (State, Answer) {
    if target.None? then (s, Answer(None, []))
    else
      match Selected(s.streams, target.value)
      case None => (s, Answer(None, []))
      case Some(i) =>
        var r := s.streams[i];
        (s.(streams := s.streams[i := r.(lastEventAt := now)]),
         Answer(Some(r.sid), Deliver(r.events, target.value)))
  }

  function Replay(s: State, t: int): Answer {
    ReplayStep(s, Some(t), 0.0).1
  }

  // ---------------------------------------------------------------------
  // Runs
  // ---------------------------------------------------------------------

  function Step(cfg: Config, w: World, op: Op): World {
    match op
    case StoreOp(sid, message, now) =>
      var (s, id) := StoreStep(cfg, w.state, sid, message, now);
      World(s, if id.Some? then w.log + [Issued(sid, Event(id.value, message))] else w.log)
    case ReplayOp(target, now) =>
      World(ReplayStep(w.state, target, now).0, w.log)
  }

  function Resume(cfg: Config, w: World, ops: seq<Op>): World
    decreases |ops|
  {
    if ops == [] then w
    else Step(cfg, Resume(cfg, w, ops[..|ops| - 1]), ops[|ops| - 1])
  }

  function Run(cfg: Config, ops: seq<Op>): World {
    Resume(cfg, World(State([], 0), []), ops)
  }

  /** The events ever issued to one stream, in issue order. */
  function ByStream(log: seq<Issued>, sid: StreamId): seq<Event> {
    if log == [] then []
    else
      var before := ByStream(log[..|log| - 1], sid);
      var last := log[|log| - 1];
      if last.sid == sid then before + [last.event] else before
  }

  ghost predicate IssuedTo(log: seq<Issued>, sid: StreamId, t: int) {
    0 <= t < |log| && log[t].sid == sid
  }

  ghost predicate WasIssued(log: seq<Issued>, sid: StreamId, e: Event) {
    IssuedTo(log, sid, e.id) && log[e.id].event == e
  }

  ghost predicate Increasing(events: seq<Event>) {
    forall i, j :: 0 <= i < j < |events| ==> events[i].id < events[j].id
  }

  ghost predicate RecordOk(cfg: Config, log: seq<Issued>, r: Record) {
    |r.events| <= cfg.maxEvents && IsSuffix(r.events, ByStream(log, r.sid))
  }

  ghost predicate Inv(cfg: Config, w: World) {
    && w.state.nextId == |w.log|
    && (forall i :: 0 <= i < |w.log| ==> w.log[i].event.id == i)
    && RecordsOk(cfg, w.log, w.state.streams)
  }

  ghost predicate Holds(w: World, sid: StreamId) {
    exists i :: 0 <= i < |w.state.streams| && w.state.streams[i].sid == sid
  }

  // --- The invariant holds in every reachable world ---------------------

  lemma {:induction false} PruneKeepsOrder(streams: seq<Record>, cfg: Config, now: real)
    requires forall i, j :: 0 <= i < j < |streams| ==> streams[i].sid != streams[j].sid
    ensures var kept := Prune(streams, cfg, now);
            |kept| <= |streams| && forall i, j :: 0 <= i < j < |kept| ==> kept[i].sid != kept[j].sid
  {
    if streams != [] {
      PruneKeepsOrder(streams[1..], cfg, now);
      var rest := Prune(streams[1..], cfg, now);
      forall j | 0 <= j < |rest| ensures rest[j].sid != streams[0].sid {
        assert rest[j] in streams[1..];
      }
    }
  }

  ghost predicate RecordsOk(cfg: Config, log: seq<Issued>, streams: seq<Record>) {
    && (forall i, j :: 0 <= i < j < |streams| ==> streams[i].sid != streams[j].sid)
    && (forall i :: 0 <= i < |streams| ==> RecordOk(cfg, log, streams[i]))
    && |streams| <= Max(cfg.maxStreams, 0)
  }

  lemma PruneOk(cfg: Config, log: seq<Issued>, streams: seq<Record>, now: real)
    requires RecordsOk(cfg, log, streams)
    ensures RecordsOk(cfg, log, Prune(streams, cfg, now))
  {
    PruneKeepsOrder(streams, cfg, now);
    var kept := Prune(streams, cfg, now);
    forall i | 0 <= i < |kept| ensures RecordOk(cfg, log, kept[i]) {
      assert kept[i] in streams;
    }
  }

  lemma CreateOk(cfg: Config, log: seq<Issued>, streams: seq<Record>, sid: StreamId, now: real)
    requires RecordsOk(cfg, log, streams)
    ensures var g := GetOrCreate(streams, cfg, sid, now); g.Some? ==> RecordsOk(cfg, log, g.value)
  {
  }

  lemma AppendOk(cfg: Config, log: seq<Issued>, streams: seq<Record>, sid: StreamId, e: Event, now: real)
    requires RecordsOk(cfg, log, streams) && IndexOf(streams, sid) < |streams|
    ensures RecordsOk(cfg, log + [Issued(sid, e)], Append(streams, cfg, sid, e, now))
  {
    var log' := log + [Issued(sid, e)];
    var streams' := Append(streams, cfg, sid, e, now);
    assert log'[..|log'| - 1] == log;
    var k := IndexOf(streams, sid);
    forall i | 0 <= i < |streams'| ensures RecordOk(cfg, log', streams'[i]) {
      assert RecordOk(cfg, log, streams[i]);
      if i == k {
        var r := streams[k];
        assert IsSuffix(r.events + [e], ByStream(log, sid) + [e]);
        SuffixTrans(Ring(cfg.maxEvents, r.events + [e]), r.events + [e], ByStream(log', sid));
      }
    }
  }

  lemma StoreKeepsInv(cfg: Config, w: World, sid: StreamId, message: Option<Message>, now: real)
    requires Inv(cfg, w)
    ensures Inv(cfg, Step(cfg, w, StoreOp(sid, message, now)))
  {
    var kept := Prune(w.state.streams, cfg, now);
    PruneOk(cfg, w.log, w.state.streams, now);
    LastIsHeld(kept, cfg, sid, now);
    CreateOk(cfg, w.log, kept, sid, now);
    var g := GetOrCreate(kept, cfg, sid, now);
    if g.Some? {
      AppendOk(cfg, w.log, g.value, sid, Event(w.state.nextId, message), now);
    }
  }

  lemma SuffixTrans(a: seq<Event>, b: seq<Event>, c: seq<Event>)
    requires IsSuffix(a, b) && IsSuffix(b, c)
    ensures IsSuffix(a, c)
  {
    assert c[|c| - |a|..] == c[|c| - |b|..][|b| - |a|..];
  }

  lemma {:induction false} ResumeKeepsInv(cfg: Config, w: World, ops: seq<Op>)
    requires Inv(cfg, w)
    ensures Inv(cfg, Resume(cfg, w, ops))
    decreases |ops|
  {
    if ops != [] {
      ResumeKeepsInv(cfg, w, ops[..|ops| - 1]);
      var op := ops[|ops| - 1];
      if op.StoreOp? {
        StoreKeepsInv(cfg, Resume(cfg, w, ops[..|ops| - 1]), op.sid, op.message, op.now);
      }
    }
  }

  lemma RunKeepsInv(cfg: Config, ops: seq<Op>)
    ensures Inv(cfg, Run(cfg, ops))
  {
    ResumeKeepsInv(cfg, World(State([], 0), []), ops);
  }

  // ---------------------------------------------------------------------
  // What the log says about one stream
  // ---------------------------------------------------------------------

  ghost predicate Sequential(log: seq<Issued>) {
    forall i :: 0 <= i < |log| ==> log[i].event.id == i
  }

  /** A stream's part of the log is increasing and is exactly what was issued to it. */
  lemma {:induction false} ByStreamFacts(log: seq<Issued>, sid: StreamId)
    requires Sequential(log)
    ensures Increasing(ByStream(log, sid))
    ensures forall e :: e in ByStream(log, sid) <==> WasIssued(log, sid, e)
  {
    if log != [] {
      var init := log[..|log| - 1];
      ByStreamFacts(init, sid);
      var before, last := ByStream(init, sid), log[|log| - 1];
      forall e: Event | WasIssued(log, sid, e) && e != last.event ensures e in before {
        assert WasIssued(init, sid, e);
      }
      forall i | 0 <= i < |before| ensures before[i].id < last.event.id {
        assert before[i] in before;
      }
    }
  }

  lemma {:induction false} DeliverMembers(events: seq<Event>, t: int)
    ensures forall e :: e in Deliver(events, t) <==> e in events && e.id > t && e.message.Some?
  {
    if events != [] {
      DeliverMembers(events[1..], t);
      assert events == [events[0]] + events[1..];
    }
  }

  lemma {:induction false} DeliverFacts(events: seq<Event>, t: int)
    requires Increasing(events)
    ensures Increasing(Deliver(events, t))
    ensures forall e :: e in Deliver(events, t) <==> e in events && e.id > t && e.message.Some?
  {
    DeliverMembers(events, t);
    if events != [] {
      TailIncreasing(events);
      DeliverFacts(events[1..], t);
      ConsIncreasing(events[0], Deliver(events[1..], t));
    }
  }

  lemma TailIncreasing(events: seq<Event>)
    requires events != [] && Increasing(events)
    ensures Increasing(events[1..]) && forall e :: e in events[1..] ==> e.id > events[0].id
  {
  }

  lemma ConsIncreasing(e: Event, rest: seq<Event>)
    requires Increasing(rest) && forall x :: x in rest ==> x.id > e.id
    ensures Increasing([e] + rest)
  {
  }

  /** What one record's buffer knows about the log. */
  lemma RecordFacts(cfg: Config, w: World, k: nat)
    requires Inv(cfg, w) && k < |w.state.streams|
    ensures var r := w.state.streams[k];
            && Increasing(r.events)
            && (forall e :: e in r.events ==> WasIssued(w.log, r.sid, e))
            && (r.events != [] ==>
                  forall e :: WasIssued(w.log, r.sid, e) && e.id >= r.events[0].id ==> e in r.events)
  {
    var r := w.state.streams[k];
    var full := ByStream(w.log, r.sid);
    ByStreamFacts(w.log, r.sid);
    assert RecordOk(cfg, w.log, r);
    var d := |full| - |r.events|;
    assert forall i :: 0 <= i < |r.events| ==> r.events[i] == full[d + i];
    forall e | e in r.events ensures e in full {
      var i :| 0 <= i < |r.events| && r.events[i] == e;
      assert full[d + i] == e;
    }
    if r.events != [] {
      forall e | e in full && e.id >= r.events[0].id ensures e in r.events {
        var i :| 0 <= i < |full| && full[i] == e;
        assert full[d].id == r.events[0].id;
        assert i >= d;
        assert r.events[i - d] == e;
      }
    }
  }

  /** An id is buffered by at most one stream: the one it was issued to. */
  lemma BufferedByIssuer(cfg: Config, w: World, k: nat, t: int)
    requires Inv(cfg, w) && k < |w.state.streams| && HasId(w.state.streams[k].events, t)
    ensures IssuedTo(w.log, w.state.streams[k].sid, t)
    ensures Holder(w.state.streams, t) == k
  {
    RecordFacts(cfg, w, k);
    var h := Holder(w.state.streams, t);
    RecordFacts(cfg, w, h);
    var r, q := w.state.streams[k], w.state.streams[h];
    var i :| 0 <= i < |r.events| && r.events[i].id == t;
    var j :| 0 <= j < |q.events| && q.events[j].id == t;
    assert r.events[i] in r.events && q.events[j] in q.events;
    assert q.sid == r.sid;
  }

  ghost predicate Buffered(w: World, sid: StreamId, t: int) {
    exists i :: 0 <= i < |w.state.streams| && w.state.streams[i].sid == sid && HasId(w.state.streams[i].events, t)
  }

  /** The messages a client of `sid` must get after `t`: each once, in issue order, none missing. */
  ghost predicate ExactlyAfter(log: seq<Issued>, sid: StreamId, t: int, sent: seq<Event>) {
    && Increasing(sent)
    && forall e :: e in sent <==> WasIssued(log, sid, e) && e.id > t && e.message.Some?
  }

  /** Gap-free replay: while `t` is buffered, replay hands over exactly the
      messages ever issued after it on its own stream. */
  lemma GapFreeReplay(cfg: Config, ops: seq<Op>, sid: StreamId, t: int)
    requires Buffered(Run(cfg, ops), sid, t)
    ensures var w := Run(cfg, ops);
            var a := Replay(w.state, t);
            a.found == Some(sid) && ExactlyAfter(w.log, sid, t, a.sent)
  {
    RunKeepsInv(cfg, ops);
    GapFreeAt(cfg, Run(cfg, ops), sid, t);
  }

  lemma GapFreeAt(cfg: Config, w: World, sid: StreamId, t: int)
    requires Inv(cfg, w) && Buffered(w, sid, t)
    ensures var a := Replay(w.state, t);
            a.found == Some(sid) && ExactlyAfter(w.log, sid, t, a.sent)
  {
    var k :| 0 <= k < |w.state.streams| && w.state.streams[k].sid == sid && HasId(w.state.streams[k].events, t);
    BufferedByIssuer(cfg, w, k, t);
    RecordFacts(cfg, w, k);
    DeliverFacts(w.state.streams[k].events, t);
  }

  // ---------------------------------------------------------------------
  // Ids that are no longer buffered
  // ---------------------------------------------------------------------

  predicate OnlyYounger(streams: seq<Record>, t: int, i: int) {
    && 0 <= i < |streams| && Younger(streams[i], t)
    && forall j :: 0 <= j < |streams| && j != i ==> !Younger(streams[j], t)
  }

  lemma CandidatesExact(streams: seq<Record>, t: int)
    ensures var c := Candidates(streams, t, |streams|);
            |c| == 1 <==> exists i :: OnlyYounger(streams, t, i)
    ensures var c := Candidates(streams, t, |streams|);
            forall i :: OnlyYounger(streams, t, i) ==> |c| == 1 && c[0] == i
  {
    var c := Candidates(streams, t, |streams|);
    if |c| == 1 {
      assert c[0] in c;
      forall j | 0 <= j < |streams| && j != c[0] ensures !Younger(streams[j], t) {
        assert j !in c;
      }
      assert OnlyYounger(streams, t, c[0]);
    }
    if |c| >= 2 {
      assert c[0] in c && c[1] in c && c[0] != c[1];
    }
    forall i | OnlyYounger(streams, t, i) ensures |c| == 1 && c[0] == i {
      assert i in c;
      assert c[0] in c;
    }
  }

  /** While the issuing stream is held with an event, replay answers with that
      stream or not at all, and exactly when it answers is decidable beforehand.
      Even after ring drops the answer skips nothing that is still buffered. */
  lemma NoCrossStreamReplay(cfg: Config, ops: seq<Op>, k: nat, t: int)
    requires k < |Run(cfg, ops).state.streams|
    requires var w := Run(cfg, ops); var r := w.state.streams[k]; r.events != [] && IssuedTo(w.log, r.sid, t)
    ensures var w := Run(cfg, ops);
            var r := w.state.streams[k];
            var a := Replay(w.state, t);
            && (a.found.None? || a.found == Some(r.sid))
            && (a.found.Some? <==> HasId(r.events, t) || OnlyYounger(w.state.streams, t, k))
            && (a.found.Some? ==> Increasing(a.sent))
            && (a.found.Some? ==> forall e :: e in a.sent <==> e in r.events && e.id > t && e.message.Some?)
            && (a.found.None? ==> a.sent == [])
  {
    RunKeepsInv(cfg, ops);
    HeldIssuerAnswers(cfg, Run(cfg, ops), k, t);
  }

  lemma HeldIssuerAnswers(cfg: Config, w: World, k: nat, t: int)
    requires Inv(cfg, w) && k < |w.state.streams|
    requires var r := w.state.streams[k]; r.events != [] && IssuedTo(w.log, r.sid, t)
    ensures var r, a := w.state.streams[k], Replay(w.state, t);
            && (a.found.Some? <==> HasId(r.events, t) || OnlyYounger(w.state.streams, t, k))
            && (a.found.Some? ==> a.found == Some(r.sid) && a.sent == Deliver(r.events, t))
            && (a.found.None? ==> a.sent == [])
            && Increasing(Deliver(r.events, t))
            && forall e :: e in Deliver(r.events, t) <==> e in r.events && e.id > t && e.message.Some?
  {
    var r := w.state.streams[k];
    RecordFacts(cfg, w, k);
    DeliverFacts(r.events, t);
    CandidatesExact(w.state.streams, t);
    if HasId(r.events, t) {
      BufferedByIssuer(cfg, w, k, t);
    } else {
      DroppedFromRing(cfg, w, k, t);
    }
  }

  /** An id that its held issuer no longer buffers is buffered nowhere, and the issuer is younger. */
  lemma DroppedFromRing(cfg: Config, w: World, k: nat, t: int)
    requires Inv(cfg, w) && k < |w.state.streams|
    requires var r := w.state.streams[k]; r.events != [] && IssuedTo(w.log, r.sid, t) && !HasId(r.events, t)
    ensures Younger(w.state.streams[k], t) && Holder(w.state.streams, t) == |w.state.streams|
  {
    var r := w.state.streams[k];
    RecordFacts(cfg, w, k);
    assert WasIssued(w.log, r.sid, w.log[t].event);
    var h := Holder(w.state.streams, t);
    if h < |w.state.streams| {
      BufferedByIssuer(cfg, w, h, t);
    }
  }

  /** Once the issuing stream is gone (or empty) the answer is None exactly when
      the held streams younger than the id do not number one; otherwise that
      unrelated stream is replayed. */
  lemma ReplayAfterIssuerGone(cfg: Config, ops: seq<Op>, sid: StreamId, t: int)
    requires IssuedTo(Run(cfg, ops).log, sid, t)
    requires var w := Run(cfg, ops);
             forall i :: 0 <= i < |w.state.streams| && w.state.streams[i].sid == sid ==> w.state.streams[i].events == []
    ensures var w := Run(cfg, ops);
            var a := Replay(w.state, t);
            && (a.found.None? <==> !exists i :: OnlyYounger(w.state.streams, t, i))
            && (forall i :: OnlyYounger(w.state.streams, t, i) ==>
                  a.found == Some(w.state.streams[i].sid) && w.state.streams[i].sid != sid)
  {
    NotBuffered(cfg, ops, t);
    var w := Run(cfg, ops);
    forall i | 0 <= i < |w.state.streams| ensures !HasId(w.state.streams[i].events, t) {
      if HasId(w.state.streams[i].events, t) {
        RunKeepsInv(cfg, ops);
        BufferedByIssuer(cfg, w, i, t);
      }
    }
  }

  /** The same for an id never issued, such as the sentinel -1 or a future id. */
  lemma ReplayOfUnissuedId(cfg: Config, ops: seq<Op>, t: int)
    requires t < 0 || t >= |Run(cfg, ops).log|
    ensures var w := Run(cfg, ops);
            var a := Replay(w.state, t);
            && (a.found.None? <==> !exists i :: OnlyYounger(w.state.streams, t, i))
            && (t >= |w.log| ==> a.found.None?)
  {
    var w := Run(cfg, ops);
    RunKeepsInv(cfg, ops);
    NotBuffered(cfg, ops, t);
    forall i | 0 <= i < |w.state.streams|
      ensures !HasId(w.state.streams[i].events, t)
      ensures t >= |w.log| ==> !Younger(w.state.streams[i], t)
    {
      RecordFacts(cfg, w, i);
      if HasId(w.state.streams[i].events, t) {
        BufferedByIssuer(cfg, w, i, t);
      }
      if Younger(w.state.streams[i], t) {
        assert w.state.streams[i].events[0] in w.state.streams[i].events;
      }
    }
  }

  lemma NotBuffered(cfg: Config, ops: seq<Op>, t: int)
    ensures var w := Run(cfg, ops);
            (forall i :: 0 <= i < |w.state.streams| ==> !HasId(w.state.streams[i].events, t)) ==>
              var a := Replay(w.state, t);
              && (a.found.None? <==> !exists i :: OnlyYounger(w.state.streams, t, i))
              && (forall i :: OnlyYounger(w.state.streams, t, i) ==> a.found == Some(w.state.streams[i].sid))
  {
    CandidatesExact(Run(cfg, ops).state.streams, t);
  }

  /** The documented promise "None when the owning stream has been evicted" fails. */
  lemma EvictedStreamCanBeAnswered()
    ensures var w := Run(Config(1, 1, 10.0), [StoreOp("a", Some("x"), 0.0), StoreOp("b", Some("y"), 0.0)]);
            && IssuedTo(w.log, "a", 0) && !Holds(w, "a")
            && Replay(w.state, 0) == Answer(Some("b"), [Event(1, Some("y"))])
  {
    var cfg, w0 := Config(1, 1, 10.0), World(State([], 0), []);
    var o1, o2 := StoreOp("a", Some("x"), 0.0), StoreOp("b", Some("y"), 0.0);
    var w1 := Step(cfg, w0, o1);
    assert w1 == World(State([Record("a", [Event(0, Some("x"))], 0.0, 0.0)], 1), [Issued("a", Event(0, Some("x")))]);
    var w2 := Step(cfg, w1, o2);
    assert w2.state == State([Record("b", [Event(1, Some("y"))], 0.0, 0.0)], 2);
    assert [o1, o2][..1] == [o1] && [o1][..0] == [];
    assert Resume(cfg, w0, []) == w0;
    assert Run(cfg, [o1]) == w1;
    assert Run(cfg, [o1, o2]) == w2;
    CandidatesExact(w2.state.streams, 0);
    assert OnlyYounger(w2.state.streams, 0, 0);
    assert Deliver([Event(1, Some("y"))], 0) == [Event(1, Some("y"))];
  }

  // ---------------------------------------------------------------------
  // How long an id stays resumable
  // ---------------------------------------------------------------------

  /** Number of events issued to `sid` after id `t`. */
  function Missed(log: seq<Issued>, sid: StreamId, t: int): nat {
    if |log| <= t + 1 || log == [] then 0
    else Missed(log[..|log| - 1], sid, t) + if log[|log| - 1].sid == sid then 1 else 0
  }

  ghost predicate ExpiredAt(cfg: Config, w: World, sid: StreamId, now: real) {
    exists i :: 0 <= i < |w.state.streams| && w.state.streams[i].sid == sid && Expired(w.state.streams[i], cfg, now)
  }

  lemma {:induction false} MissedCounts(log: seq<Issued>, sid: StreamId, t: int, i: nat)
    requires Sequential(log) && i < |ByStream(log, sid)| && ByStream(log, sid)[i].id == t
    ensures Missed(log, sid, t) == |ByStream(log, sid)| - 1 - i
  {
    var full := ByStream(log, sid);
    ByStreamFacts(log, sid);
    assert full[i] in full;
    var init := log[..|log| - 1];
    var before := ByStream(init, sid);
    if |log| == t + 1 {
      assert full[|full| - 1] == log[t].event;
      assert i == |full| - 1;
    } else {
      assert log[|log| - 1].sid == sid ==> full[|before|].id == |log| - 1;
      MissedCounts(init, sid, t, i);
    }
  }

  /** Looking a stream up or creating another one leaves a held record as it was. */
  lemma CreateKeepsRecord(cfg: Config, streams: seq<Record>, other: StreamId, now: real, j: nat, k: nat)
    requires forall a, b :: 0 <= a < b < |streams| ==> streams[a].sid != streams[b].sid
    requires j < |streams| && GetOrCreate(streams, cfg, other, now).Some?
    requires k < |GetOrCreate(streams, cfg, other, now).value|
    requires GetOrCreate(streams, cfg, other, now).value[k].sid == streams[j].sid
    ensures GetOrCreate(streams, cfg, other, now).value[k] == streams[j]
  {
  }

  /** Storing appends to the record of that stream and leaves the other unexpired ones as they were. */
  lemma StoreRecord(cfg: Config, w: World, op: Op, k: nat, k': nat)
    requires Inv(cfg, w) && op.StoreOp? && k < |w.state.streams| && !Expired(w.state.streams[k], cfg, op.now)
    requires k' < |Step(cfg, w, op).state.streams| && Step(cfg, w, op).state.streams[k'].sid == w.state.streams[k].sid
    ensures var w', r, e := Step(cfg, w, op), w.state.streams[k], Event(w.state.nextId, op.message);
            && w'.log == w.log + [Issued(op.sid, e)]
            && w'.state.streams[k'].events == if op.sid == r.sid then Ring(cfg.maxEvents, r.events + [e]) else r.events
  {
    var r, kept := w.state.streams[k], Prune(w.state.streams, cfg, op.now);
    PruneOk(cfg, w.log, w.state.streams, op.now);
    assert r in kept;
    var j :| 0 <= j < |kept| && kept[j] == r;
    LastIsHeld(kept, cfg, op.sid, op.now);
    CreateKeepsRecord(cfg, kept, op.sid, op.now, j, k');
    CreateOk(cfg, w.log, kept, op.sid, op.now);
  }

  lemma StoreKeepsBuffered(cfg: Config, w: World, op: Op, sid: StreamId, t: int)
    requires Inv(cfg, w) && Buffered(w, sid, t) && op.StoreOp?
    requires !ExpiredAt(cfg, w, sid, op.now) && Holds(Step(cfg, w, op), sid)
    requires Missed(Step(cfg, w, op).log, sid, t) < cfg.maxEvents
    ensures Buffered(Step(cfg, w, op), sid, t)
  {
    var w' := Step(cfg, w, op);
    var k :| 0 <= k < |w.state.streams| && w.state.streams[k].sid == sid && HasId(w.state.streams[k].events, t);
    var k' :| 0 <= k' < |w'.state.streams| && w'.state.streams[k'].sid == sid;
    StoreRecord(cfg, w, op, k, k');
    if op.sid == sid {
      StoreKeepsInv(cfg, w, op.sid, op.message, op.now);
      assert w'.log[..|w'.log| - 1] == w.log;
      assert RecordOk(cfg, w.log, w.state.streams[k]);
      NewestKept(cfg, w', w.state.streams[k].events, k', t);
    }
  }

  lemma NewestKept(cfg: Config, w: World, old_: seq<Event>, k: nat, t: int)
    requires Inv(cfg, w) && k < |w.state.streams| && w.log != []
    requires w.log[|w.log| - 1].sid == w.state.streams[k].sid
    requires HasId(old_, t) && IsSuffix(old_, ByStream(w.log[..|w.log| - 1], w.state.streams[k].sid))
    requires w.state.streams[k].events == Ring(cfg.maxEvents, old_ + [w.log[|w.log| - 1].event])
    requires Missed(w.log, w.state.streams[k].sid, t) < cfg.maxEvents
    ensures HasId(w.state.streams[k].events, t)
  {
    var sid := w.state.streams[k].sid;
    var full := ByStream(w.log, sid);
    var more := old_ + [w.log[|w.log| - 1].event];
    var i :| 0 <= i < |old_| && old_[i].id == t;
    var d := |full| - |more|;
    assert full[d + i] == more[i];
    MissedCounts(w.log, sid, t, d + i);
    var ring := w.state.streams[k].events;
    assert ring[i - (|more| - |ring|)] == more[i];
  }

  /** One step of a run during which the stream is held and unexpired. */
  lemma StepKeepsBuffered(cfg: Config, w: World, op: Op, sid: StreamId, t: int)
    requires Inv(cfg, w) && Buffered(w, sid, t)
    requires op.StoreOp? ==> !ExpiredAt(cfg, w, sid, op.now)
    requires Holds(Step(cfg, w, op), sid)
    requires Missed(Step(cfg, w, op).log, sid, t) < cfg.maxEvents
    ensures Buffered(Step(cfg, w, op), sid, t)
  {
    if op.StoreOp? {
      StoreKeepsBuffered(cfg, w, op, sid, t);
    } else {
      var k :| 0 <= k < |w.state.streams| && w.state.streams[k].sid == sid && HasId(w.state.streams[k].events, t);
      assert Step(cfg, w, op).state.streams[k].events == w.state.streams[k].events;
    }
  }

  lemma MissedGrows(cfg: Config, w: World, op: Op, sid: StreamId, t: int)
    ensures Missed(w.log, sid, t) <= Missed(Step(cfg, w, op).log, sid, t)
  {
    var w' := Step(cfg, w, op);
    if w'.log != w.log {
      assert w'.log[..|w'.log| - 1] == w.log;
    }
  }

  ghost predicate HeldThroughout(cfg: Config, w: World, ops: seq<Op>, sid: StreamId)
    decreases |ops|
  {
    && Holds(Resume(cfg, w, ops), sid)
    && (ops != [] ==>
          var before := ops[..|ops| - 1];
          && HeldThroughout(cfg, w, before, sid)
          && (ops[|ops| - 1].StoreOp? ==> !ExpiredAt(cfg, Resume(cfg, w, before), sid, ops[|ops| - 1].now)))
  }

  lemma {:induction false} WindowKeepsBuffered(cfg: Config, w: World, ops: seq<Op>, sid: StreamId, t: int)
    requires Inv(cfg, w) && Buffered(w, sid, t) && HeldThroughout(cfg, w, ops, sid)
    requires Missed(Resume(cfg, w, ops).log, sid, t) < cfg.maxEvents
    ensures Buffered(Resume(cfg, w, ops), sid, t)
    decreases |ops|
  {
    if ops != [] {
      var before, op := ops[..|ops| - 1], ops[|ops| - 1];
      var m := Resume(cfg, w, before);
      MissedGrows(cfg, m, op, sid, t);
      WindowKeepsBuffered(cfg, w, before, sid, t);
      ResumeKeepsInv(cfg, w, before);
      StepKeepsBuffered(cfg, m, op, sid, t);
    }
  }

  /** End-to-end resumption: a client that received `t` and then missed fewer
      than `maxEvents` events, on a stream held and unexpired throughout,
      is replayed exactly what it missed. */
  lemma ResumeWithinWindow(cfg: Config, ops: seq<Op>, more: seq<Op>, sid: StreamId, t: int)
    requires Buffered(Run(cfg, ops), sid, t)
    requires HeldThroughout(cfg, Run(cfg, ops), more, sid)
    requires Missed(Resume(cfg, Run(cfg, ops), more).log, sid, t) < cfg.maxEvents
    ensures var w := Resume(cfg, Run(cfg, ops), more);
            var a := Replay(w.state, t);
            a.found == Some(sid) && ExactlyAfter(w.log, sid, t, a.sent)
  {
    RunKeepsInv(cfg, ops);
    WindowKeepsBuffered(cfg, Run(cfg, ops), more, sid, t);
    ResumeKeepsInv(cfg, Run(cfg, ops), more);
    GapFreeAt(cfg, Resume(cfg, Run(cfg, ops), more), sid, t);
  }

  // ---------------------------------------------------------------------
  // The cap evicts the oldest stream
  // ---------------------------------------------------------------------

  ghost predicate ClockMonotone(ops: seq<Op>) {
    forall i, j :: 0 <= i < j < |ops| ==> ops[i].now <= ops[j].now
  }

  ghost predicate OldestFirst(streams: seq<Record>, now: real) {
    && (forall i, j :: 0 <= i < j < |streams| ==> streams[i].createdAt <= streams[j].createdAt)
    && (forall i :: 0 <= i < |streams| ==> streams[i].createdAt <= now)
  }

  lemma {:induction false} PruneOldestFirst(streams: seq<Record>, cfg: Config, now: real)
    requires OldestFirst(streams, now)
    ensures OldestFirst(Prune(streams, cfg, now), now)
  {
    if streams != [] {
      PruneOldestFirst(streams[1..], cfg, now);
      var rest := Prune(streams[1..], cfg, now);
      forall j | 0 <= j < |rest| ensures streams[0].createdAt <= rest[j].createdAt {
        assert rest[j] in streams[1..];
      }
    }
  }

  lemma StepOldestFirst(cfg: Config, w: World, op: Op)
    requires OldestFirst(w.state.streams, op.now)
    ensures OldestFirst(Step(cfg, w, op).state.streams, op.now)
  {
    if op.StoreOp? {
      PruneOldestFirst(w.state.streams, cfg, op.now);
      var kept := Prune(w.state.streams, cfg, op.now);
      LastIsHeld(kept, cfg, op.sid, op.now);
      var g := GetOrCreate(kept, cfg, op.sid, op.now);
      if g.Some? {
        CreateOldestFirst(cfg, kept, op.sid, op.now);
        SameCreation(g.value, Append(g.value, cfg, op.sid, Event(w.state.nextId, op.message), op.now), op.now);
      }
    } else {
      SameCreation(w.state.streams, Step(cfg, w, op).state.streams, op.now);
    }
  }

  lemma CreateOldestFirst(cfg: Config, streams: seq<Record>, sid: StreamId, now: real)
    requires OldestFirst(streams, now) && GetOrCreate(streams, cfg, sid, now).Some?
    ensures OldestFirst(GetOrCreate(streams, cfg, sid, now).value, now)
  {
  }

  lemma SameCreation(a: seq<Record>, b: seq<Record>, now: real)
    requires OldestFirst(a, now) && |a| == |b|
    requires forall i :: 0 <= i < |a| ==> a[i].createdAt == b[i].createdAt
    ensures OldestFirst(b, now)
  {
  }

  lemma {:induction false} RunOldestFirst(cfg: Config, ops: seq<Op>, now: real)
    requires ClockMonotone(ops) && forall i :: 0 <= i < |ops| ==> ops[i].now <= now
    ensures OldestFirst(Run(cfg, ops).state.streams, now)
    decreases |ops|
  {
    if ops != [] {
      var op := ops[|ops| - 1];
      RunOldestFirst(cfg, ops[..|ops| - 1], op.now);
      StepOldestFirst(cfg, Run(cfg, ops[..|ops| - 1]), op);
    }
  }

  /** On a clock that never runs backwards the dict order is the creation order: storing to
      a new stream at the cap drops exactly one record, of least `created_at`. */
  lemma CapEvictsOldest(cfg: Config, ops: seq<Op>, sid: StreamId, message: Option<Message>, now: real)
    requires ClockMonotone(ops) && forall i :: 0 <= i < |ops| ==> ops[i].now <= now
    requires var kept := Prune(Run(cfg, ops).state.streams, cfg, now);
             |kept| >= cfg.maxStreams >= 1 && IndexOf(kept, sid) == |kept|
    ensures var kept := Prune(Run(cfg, ops).state.streams, cfg, now);
            var after := Step(cfg, Run(cfg, ops), StoreOp(sid, message, now)).state.streams;
            && (forall r :: r in kept ==> kept[0].createdAt <= r.createdAt)
            && |after| == |kept| && after[..|after| - 1] == kept[1..] && after[|after| - 1].sid == sid
  {
    var w := Run(cfg, ops);
    RunOldestFirst(cfg, ops, now);
    PruneOldestFirst(w.state.streams, cfg, now);
    var kept := Prune(w.state.streams, cfg, now);
    LastIsHeld(kept, cfg, sid, now);
    var g := GetOrCreate(kept, cfg, sid, now).value;
    assert IndexOf(g, sid) == |g| - 1 by {
      assert forall j :: 0 <= j < |g| - 1 ==> g[j] == kept[j + 1];
    }
  }

  // ---------------------------------------------------------------------
  // Resuming, judged from the operations alone
  // ---------------------------------------------------------------------

  ghost predicate NeverStored(ops: seq<Op>, sid: StreamId) {
    forall i :: 0 <= i < |ops| && ops[i].StoreOp? ==> ops[i].sid != sid
  }

  /** The other streams stored to. */
  ghost function OtherIds(ops: seq<Op>, sid: StreamId): set<StreamId> {
    set i | 0 <= i < |ops| && ops[i].StoreOp? && ops[i].sid != sid :: ops[i].sid
  }

  /** The operation stores to `sid`, or is a replay that this stream answers. */
  predicate Touches(w: World, op: Op, sid: StreamId) {
    match op
    case StoreOp(x, _, _) => x == sid
    case ReplayOp(target, _) => target.Some? && Replay(w.state, target.value).found == Some(sid)
  }

  /** Time of the last store to `sid` or replay from it, the first store having been at `start`. */
  ghost function LastTouch(cfg: Config, w: World, ops: seq<Op>, sid: StreamId, start: real): real
    decreases |ops|
  {
    if ops == [] then start
    else
      var init, op := ops[..|ops| - 1], ops[|ops| - 1];
      if Touches(Resume(cfg, w, init), op, sid) then op.now else LastTouch(cfg, w, init, sid, start)
  }

  /** Whenever something is stored, the last touch of `sid` is at most the TTL ago. */
  ghost predicate TouchedInTime(cfg: Config, w: World, ops: seq<Op>, sid: StreamId, start: real) {
    forall j :: 0 <= j < |ops| && ops[j].StoreOp? ==> InTime(cfg, w, ops, sid, start, j)
  }

  ghost predicate InTime(cfg: Config, w: World, ops: seq<Op>, sid: StreamId, start: real, j: nat)
    requires j < |ops|
  {
    ops[j].now - cfg.ttl <= LastTouch(cfg, w, ops[..j], sid, start)
  }

  /** The record of `sid` is held, its buffer lost nothing it had room for, and only streams of `ids` are younger. */
  ghost predicate KeptAt(cfg: Config, w: World, sid: StreamId, ids: set<StreamId>, last: real, k: nat) {
    && k < |w.state.streams| && w.state.streams[k].sid == sid && last <= w.state.streams[k].lastEventAt
    && |w.state.streams[k].events| == Min(cfg.maxEvents, |ByStream(w.log, sid)|)
    && YoungerIn(w.state.streams, k, ids)
  }

  ghost predicate YoungerIn(streams: seq<Record>, k: nat, ids: set<StreamId>) {
    forall j :: k < j < |streams| ==> streams[j].sid in ids
  }

  ghost predicate DistinctIds(streams: seq<Record>) {
    forall i, j :: 0 <= i < j < |streams| ==> streams[i].sid != streams[j].sid
  }

  lemma {:induction false} DistinctIn(streams: seq<Record>, ids: set<StreamId>)
    requires DistinctIds(streams) && forall j :: 0 <= j < |streams| ==> streams[j].sid in ids
    ensures |streams| <= |ids|
  {
    if streams != [] {
      var n := |streams| - 1;
      DistinctIn(streams[..n], ids - {streams[n].sid});
    }
  }

  lemma {:induction false} PruneKeepsPlace(cfg: Config, streams: seq<Record>, now: real, k: nat) returns (j: nat)
    requires k < |streams| && !Expired(streams[k], cfg, now)
    ensures var kept := Prune(streams, cfg, now);
            j < |kept| && kept[j] == streams[k] && forall i :: j < i < |kept| ==> kept[i] in streams[k + 1..]
  {
    var rest := streams[1..];
    if k == 0 {
      j := 0;
    } else {
      var i := PruneKeepsPlace(cfg, rest, now, k - 1);
      assert rest[k..] == streams[k + 1..];
      assert rest[(k - 1) + 1..] == streams[k + 1..];
      j := if Expired(streams[0], cfg, now) then i else i + 1;
      if !Expired(streams[0], cfg, now) {
        assert forall x :: 0 <= x < |Prune(rest, cfg, now)| ==>
            Prune(streams, cfg, now)[x + 1] == Prune(rest, cfg, now)[x];
      }
    }
  }

  /** Looking up or creating another stream leaves the record in place: it is never the oldest of a full store. */
  lemma CreateKeepsPlace(cfg: Config, streams: seq<Record>, other: StreamId, now: real, ids: set<StreamId>, k: nat)
    returns (j: nat)
    requires DistinctIds(streams) && k < |streams| && streams[k].sid != other
    requires YoungerIn(streams, k, ids) && other in ids && |ids| < cfg.maxStreams
    ensures var g := GetOrCreate(streams, cfg, other, now);
            g.Some? && j < |g.value| && g.value[j] == streams[k] && YoungerIn(g.value, j, ids)
  {
    j := k;
    if IndexOf(streams, other) == |streams| && |streams| >= cfg.maxStreams {
      if k == 0 {
        assert forall i :: 0 <= i < |streams[1..]| ==> streams[1..][i] == streams[i + 1];
        DistinctIn(streams[1..], ids - {other});
      }
      j := k - 1;
    }
  }

  lemma StoreKeepsPlace(cfg: Config, w: World, op: Op, sid: StreamId, ids: set<StreamId>, last: real, k: nat)
    returns (j: nat)
    requires Inv(cfg, w) && KeptAt(cfg, w, sid, ids, last, k) && op.StoreOp? && op.sid != sid
    requires op.sid in ids && |ids| < cfg.maxStreams && op.now - cfg.ttl <= last
    ensures KeptAt(cfg, Step(cfg, w, op), sid, ids, last, j)
  {
    var kept := Prune(w.state.streams, cfg, op.now);
    PruneOk(cfg, w.log, w.state.streams, op.now);
    var i := PruneKeepsPlace(cfg, w.state.streams, op.now, k);
    assert YoungerIn(kept, i, ids) by {
      forall x | i < x < |kept| ensures kept[x].sid in ids {
        assert kept[x] in w.state.streams[k + 1..];
      }
    }
    j := CreateKeepsPlace(cfg, kept, op.sid, op.now, ids, i);
    LastIsHeld(kept, cfg, op.sid, op.now);
    var g := GetOrCreate(kept, cfg, op.sid, op.now).value;
    AppendElsewhere(cfg, g, op.sid, Event(w.state.nextId, op.message), op.now, ids, j);
    OtherLog(w.log, Issued(op.sid, Event(w.state.nextId, op.message)), sid);
  }

  lemma AppendElsewhere(cfg: Config, streams: seq<Record>, other: StreamId, e: Event, now: real,
                        ids: set<StreamId>, j: nat)
    requires j < |streams| && streams[j].sid != other && IndexOf(streams, other) < |streams|
    requires YoungerIn(streams, j, ids)
    ensures var after := Append(streams, cfg, other, e, now);
            |after| == |streams| && after[j] == streams[j] && YoungerIn(after, j, ids)
  {
    var after := Append(streams, cfg, other, e, now);
    forall x | j < x < |after| ensures after[x].sid in ids {
      assert after[x].sid == streams[x].sid;
    }
  }

  lemma OtherLog(log: seq<Issued>, issued: Issued, sid: StreamId)
    requires issued.sid != sid
    ensures ByStream(log + [issued], sid) == ByStream(log, sid)
  {
    assert (log + [issued])[..|log|] == log;
  }

  lemma StoreToSelf(cfg: Config, w: World, op: Op, ids: set<StreamId>, last: real, k: nat) returns (j: nat)
    requires Inv(cfg, w) && op.StoreOp? && KeptAt(cfg, w, op.sid, ids, last, k) && op.now - cfg.ttl <= last
    ensures KeptAt(cfg, Step(cfg, w, op), op.sid, ids, op.now, j)
  {
    var kept := Prune(w.state.streams, cfg, op.now);
    PruneOk(cfg, w.log, w.state.streams, op.now);
    j := PruneKeepsPlace(cfg, w.state.streams, op.now, k);
    assert YoungerIn(kept, j, ids) by {
      forall x | j < x < |kept| ensures kept[x].sid in ids {
        assert kept[x] in w.state.streams[k + 1..];
      }
    }
    assert IndexOf(kept, op.sid) == j;
    var w' := Step(cfg, w, op);
    assert w'.log[..|w'.log| - 1] == w.log;
    assert ByStream(w'.log, op.sid) == ByStream(w.log, op.sid) + [Event(w.state.nextId, op.message)];
  }

  /** An answered replay at `now` gives the stream that answers the timestamp `now`, and changes nothing else. */
  lemma ReplayRefreshes(cfg: Config, w: World, target: Option<int>, now: real)
    requires Inv(cfg, w)
    ensures var (s, a) := ReplayStep(w.state, target, now);
            && s.nextId == w.state.nextId && |s.streams| == |w.state.streams|
            && (forall i :: 0 <= i < |s.streams| ==> SameButTime(s.streams[i], w.state.streams[i]))
            && (forall i :: 0 <= i < |s.streams| && a.found == Some(s.streams[i].sid) ==>
                  s.streams[i].lastEventAt == now)
            && (forall i :: 0 <= i < |s.streams| && a.found != Some(s.streams[i].sid) ==>
                  s.streams[i].lastEventAt == w.state.streams[i].lastEventAt)
  {
  }

  ghost predicate SameButTime(r: Record, q: Record) {
    r.sid == q.sid && r.events == q.events && r.createdAt == q.createdAt
  }

  lemma AnswerIgnoresClock(s: State, t: int, now: real)
    ensures ReplayStep(s, Some(t), now).1 == Replay(s, t)
  {
  }

  lemma ReplayKeepsPlace(cfg: Config, w: World, op: Op, sid: StreamId, ids: set<StreamId>, last: real, k: nat)
    requires Inv(cfg, w) && KeptAt(cfg, w, sid, ids, last, k) && op.ReplayOp? && last <= op.now
    ensures KeptAt(cfg, Step(cfg, w, op), sid, ids, if Touches(w, op, sid) then op.now else last, k)
  {
    ReplayRefreshes(cfg, w, op.target, op.now);
    if op.target.Some? {
      AnswerIgnoresClock(w.state, op.target.value, op.now);
    }
    var streams := Step(cfg, w, op).state.streams;
    assert SameButTime(streams[k], w.state.streams[k]);
    forall j | k < j < |streams| ensures streams[j].sid in ids {
      assert SameButTime(streams[j], w.state.streams[j]);
    }
  }

  /** A store leaves no other stream that has been idle longer than the TTL, and drops
      no other as long as there is room under the cap. */
  lemma StorePrunesIdle(cfg: Config, w: World, sid: StreamId, message: Option<Message>, now: real)
    requires Inv(cfg, w)
    ensures var after := Step(cfg, w, StoreOp(sid, message, now)).state.streams;
            && (forall r :: r in after && r.sid != sid ==> r in w.state.streams && now - r.lastEventAt <= cfg.ttl)
            && (|w.state.streams| < cfg.maxStreams ==>
                  forall r :: r in w.state.streams && r.sid != sid && now - r.lastEventAt <= cfg.ttl ==> r in after)
  {
    var kept, after := Prune(w.state.streams, cfg, now), Step(cfg, w, StoreOp(sid, message, now)).state.streams;
    PruneKeepsOrder(w.state.streams, cfg, now);
    LastIsHeld(kept, cfg, sid, now);
    var g := GetOrCreate(kept, cfg, sid, now);
    forall r | r in after && r.sid != sid ensures r in kept {
      var i :| 0 <= i < |after| && after[i] == r;
      assert g.Some? ==> g.value[i] == r && r in g.value;
    }
    forall r | r in kept && r.sid != sid && |w.state.streams| < cfg.maxStreams ensures r in after {
      var i :| 0 <= i < |kept| && kept[i] == r;
      assert g.Some? && g.value[i] == r;
      assert after[i] == r;
    }
  }

  /** A stream never stored to is unknown. */
  lemma {:induction false} Unknown(cfg: Config, ops: seq<Op>, sid: StreamId)
    requires NeverStored(ops, sid)
    ensures !Holds(Run(cfg, ops), sid) && ByStream(Run(cfg, ops).log, sid) == []
    decreases |ops|
  {
    if ops != [] {
      var n := |ops| - 1;
      var w, w' := Run(cfg, ops[..n]), Run(cfg, ops);
      Unknown(cfg, ops[..n], sid);
      assert w' == Step(cfg, w, ops[n]);
      StaysUnknown(cfg, w, ops[n], sid);
    }
  }

  lemma StaysUnknown(cfg: Config, w: World, op: Op, sid: StreamId)
    requires !Holds(w, sid) && ByStream(w.log, sid) == [] && (op.StoreOp? ==> op.sid != sid)
    ensures !Holds(Step(cfg, w, op), sid) && ByStream(Step(cfg, w, op).log, sid) == []
  {
    if op.StoreOp? {
      var kept, e := Prune(w.state.streams, cfg, op.now), Event(w.state.nextId, op.message);
      forall i | 0 <= i < |kept| ensures kept[i].sid != sid {
        assert kept[i] in w.state.streams;
      }
      LastIsHeld(kept, cfg, op.sid, op.now);
      StoreAddsOther(cfg, kept, op.sid, e, op.now, sid);
      assert (w.log + [Issued(op.sid, e)])[..|w.log|] == w.log;
    }
  }

  lemma StoreAddsOther(cfg: Config, streams: seq<Record>, other: StreamId, e: Event, now: real, sid: StreamId)
    requires other != sid && forall i :: 0 <= i < |streams| ==> streams[i].sid != sid
    ensures var g := GetOrCreate(streams, cfg, other, now);
            g.Some? ==> IndexOf(g.value, other) < |g.value| &&
                        forall i :: 0 <= i < |g.value| ==> Append(g.value, cfg, other, e, now)[i].sid != sid
  {
    LastIsHeld(streams, cfg, other, now);
  }

  /** The first store creates the youngest record. */
  lemma FirstStore(cfg: Config, w: World, op: Op, ids: set<StreamId>) returns (k: nat)
    requires Inv(cfg, w) && op.StoreOp? && !Holds(w, op.sid) && ByStream(w.log, op.sid) == [] && cfg.maxStreams >= 1
    ensures KeptAt(cfg, Step(cfg, w, op), op.sid, ids, op.now, k)
  {
    var kept := Prune(w.state.streams, cfg, op.now);
    forall i | 0 <= i < |kept| ensures kept[i].sid != op.sid {
      assert kept[i] in w.state.streams;
    }
    CreatedLast(cfg, kept, op.sid, op.now);
    var g, e := GetOrCreate(kept, cfg, op.sid, op.now).value, Event(w.state.nextId, op.message);
    k := |g| - 1;
    OwnLog(w.log, Issued(op.sid, e));
    var after := State(Append(g, cfg, op.sid, e, op.now), w.state.nextId + 1);
    assert Step(cfg, w, op) == World(after, w.log + [Issued(op.sid, e)]);
  }

  lemma CreatedLast(cfg: Config, streams: seq<Record>, sid: StreamId, now: real)
    requires cfg.maxStreams >= 1 && forall i :: 0 <= i < |streams| ==> streams[i].sid != sid
    ensures var g := GetOrCreate(streams, cfg, sid, now);
            && g.Some? && g.value != [] && IndexOf(g.value, sid) == |g.value| - 1
            && g.value[|g.value| - 1] == Record(sid, [], now, now)
  {
    assert IndexOf(streams, sid) == |streams|;
    var g := GetOrCreate(streams, cfg, sid, now).value;
    var d := if |streams| < cfg.maxStreams then 0 else 1;
    assert g == streams[d..] + [Record(sid, [], now, now)];
    forall j | 0 <= j < |g| - 1 ensures g[j].sid != sid {
      assert g[j] == streams[j + d];
    }
    assert g[|g| - 1].sid == sid;
    assert IndexOf(g, sid) == |g| - 1;
  }

  lemma OwnLog(log: seq<Issued>, issued: Issued)
    ensures ByStream(log + [issued], issued.sid) == ByStream(log, issued.sid) + [issued.event]
  {
    assert (log + [issued])[..|log|] == log;
  }

  lemma {:induction false} LastTouchBound(cfg: Config, w: World, ops: seq<Op>, sid: StreamId, start: real, now: real)
    requires start <= now && forall i :: 0 <= i < |ops| ==> ops[i].now <= now
    ensures LastTouch(cfg, w, ops, sid, start) <= now
    decreases |ops|
  {
    if ops != [] {
      LastTouchBound(cfg, w, ops[..|ops| - 1], sid, start, now);
    }
  }

  /** The operations after the first store to `sid`, on a clock that never runs backwards. */
  ghost predicate Timely(cfg: Config, w: World, ops: seq<Op>, sid: StreamId, start: real) {
    && ClockMonotone(ops) && (forall i :: 0 <= i < |ops| ==> start <= ops[i].now)
    && TouchedInTime(cfg, w, ops, sid, start)
  }

  lemma TimelyInit(cfg: Config, w: World, ops: seq<Op>, sid: StreamId, start: real)
    requires Timely(cfg, w, ops, sid, start) && ops != []
    ensures var init, op := ops[..|ops| - 1], ops[|ops| - 1];
            && Timely(cfg, w, init, sid, start) && LastTouch(cfg, w, init, sid, start) <= op.now
            && (op.StoreOp? ==> op.now - cfg.ttl <= LastTouch(cfg, w, init, sid, start))
  {
    var n := |ops| - 1;
    var init := ops[..n];
    forall j | 0 <= j < |init| && init[j].StoreOp? ensures InTime(cfg, w, init, sid, start, j) {
      assert init[..j] == ops[..j] && InTime(cfg, w, ops, sid, start, j);
    }
    LastTouchBound(cfg, w, init, sid, start, ops[n].now);
    assert ops[n].StoreOp? ==> InTime(cfg, w, ops, sid, start, n);
  }

  lemma {:induction false} KeptThroughout(cfg: Config, w: World, ops: seq<Op>, sid: StreamId, ids: set<StreamId>,
                                          start: real, k: nat)
    returns (j: nat)
    requires Inv(cfg, w) && KeptAt(cfg, w, sid, ids, start, k) && Timely(cfg, w, ops, sid, start)
    requires OtherIds(ops, sid) <= ids && |ids| < cfg.maxStreams
    ensures KeptAt(cfg, Resume(cfg, w, ops), sid, ids, LastTouch(cfg, w, ops, sid, start), j)
    decreases |ops|
  {
    if ops == [] {
      j := k;
    } else {
      var n := |ops| - 1;
      var init, op := ops[..n], ops[n];
      TimelyInit(cfg, w, ops, sid, start);
      assert OtherIds(init, sid) <= OtherIds(ops, sid);
      var i := KeptThroughout(cfg, w, init, sid, ids, start, k);
      var m, last := Resume(cfg, w, init), LastTouch(cfg, w, init, sid, start);
      ResumeKeepsInv(cfg, w, init);
      if op.ReplayOp? {
        ReplayKeepsPlace(cfg, m, op, sid, ids, last, i);
        j := i;
      } else if op.sid == sid {
        j := StoreToSelf(cfg, m, op, ids, last, i);
      } else {
        assert op.sid in OtherIds(ops, sid);
        j := StoreKeepsPlace(cfg, m, op, sid, ids, last, i);
      }
    }
  }

  /** A buffer that lost nothing it had room for still has every id followed by fewer events than it holds. */
  lemma RecentIsBuffered(cfg: Config, w: World, sid: StreamId, ids: set<StreamId>, last: real, k: nat, t: int)
    requires Inv(cfg, w) && KeptAt(cfg, w, sid, ids, last, k)
    requires IssuedTo(w.log, sid, t) && Missed(w.log, sid, t) < cfg.maxEvents
    ensures Buffered(w, sid, t)
  {
    var full, events := ByStream(w.log, sid), w.state.streams[k].events;
    ByStreamFacts(w.log, sid);
    assert WasIssued(w.log, sid, w.log[t].event);
    var i :| 0 <= i < |full| && full[i] == w.log[t].event;
    MissedCounts(w.log, sid, t, i);
    assert RecordOk(cfg, w.log, w.state.streams[k]);
    InSuffix(events, full, i);
  }

  lemma InSuffix(events: seq<Event>, full: seq<Event>, i: nat)
    requires IsSuffix(events, full) && |full| - |events| <= i < |full|
    ensures HasId(events, full[i].id)
  {
    assert events[i - (|full| - |events|)] == full[i];
  }

  /** Resumption judged from the operations: since the first store to its stream, the stream was stored to or answered
      a replay often enough for the TTL, fewer other streams than the cap were stored to, and the client missed fewer
      events than a ring holds. Then it is replayed exactly what it missed. */
  lemma ResumeFromOperations(cfg: Config, before: seq<Op>, first: Op, since: seq<Op>, t: int)
    requires first.StoreOp? && NeverStored(before, first.sid) && |OtherIds(since, first.sid)| < cfg.maxStreams
    requires Timely(cfg, Step(cfg, Run(cfg, before), first), since, first.sid, first.now)
    ensures var w := Resume(cfg, Step(cfg, Run(cfg, before), first), since);
            var a := Replay(w.state, t);
            IssuedTo(w.log, first.sid, t) && Missed(w.log, first.sid, t) < cfg.maxEvents ==>
              a.found == Some(first.sid) && ExactlyAfter(w.log, first.sid, t, a.sent)
  {
    var sid, ids := first.sid, OtherIds(since, first.sid);
    var w0 := Run(cfg, before);
    var w1 := Step(cfg, w0, first);
    RunKeepsInv(cfg, before);
    Unknown(cfg, before, sid);
    StoreKeepsInv(cfg, w0, sid, first.message, first.now);
    var k := FirstStore(cfg, w0, first, ids);
    var j := KeptThroughout(cfg, w1, since, sid, ids, first.now, k);
    ResumeKeepsInv(cfg, w1, since);
    var w := Resume(cfg, w1, since);
    if IssuedTo(w.log, sid, t) && Missed(w.log, sid, t) < cfg.maxEvents {
      RecentIsBuffered(cfg, w, sid, ids, LastTouch(cfg, w1, since, sid, first.now), j, t);
      GapFreeAt(cfg, w, sid, t);
    }
  }

  // ---------------------------------------------------------------------
  // The store object
  // ---------------------------------------------------------------------

  lemma {:induction false} PruneConcat(a: seq<Record>, b: seq<Record>, cfg: Config, now: real)
    ensures Prune(a + b, cfg, now) == Prune(a, cfg, now) + Prune(b, cfg, now)
  {
    if a == [] {
      assert a + b == b;
    } else {
      assert (a + b)[0] == a[0] && (a + b)[1..] == a[1..] + b;
      PruneConcat(a[1..], b, cfg, now);
    }
  }

  lemma PruneSnoc(streams: seq<Record>, n: nat, cfg: Config, now: real)
    requires n < |streams|
    ensures Prune(streams[..n + 1], cfg, now) ==
            Prune(streams[..n], cfg, now) + if Expired(streams[n], cfg, now) then [] else [streams[n]]
  {
    assert streams[..n + 1] == streams[..n] + [streams[n]];
    PruneConcat(streams[..n], [streams[n]], cfg, now);
    assert [streams[n]][1..] == [];
  }

  lemma {:induction false} DeliverSnoc(events: seq<Event>, n: nat, t: int)
    requires n < |events|
    ensures Deliver(events[..n + 1], t) ==
            Deliver(events[..n], t) + if events[n].id > t && events[n].message.Some? then [events[n]] else []
  {
    if n == 0 {
      assert events[..1] == [events[0]] && events[..0] == [];
    } else {
      DeliverSnoc(events[1..], n - 1, t);
      assert events[1..][..n] == events[..n + 1][1..];
      assert events[1..][..n - 1] == events[..n][1..];
    }
  }

  class InMemoryEventStore {
    const cfg: Config
    var streams: seq<Record>
    var nextId: nat
    /** Every event ever issued by this store. */
    ghost var log: seq<Issued>

    ghost function View(): World
      reads this
    {
      World(State(streams, nextId), log)
    }

    ghost predicate Valid()
      reads this
    {
      Inv(cfg, View())
    }

    constructor (cfg: Config)
      ensures Valid() && this.cfg == cfg && View() == Run(cfg, [])
    {
      this.cfg, streams, nextId, log := cfg, [], 0, [];
    }

    method PruneExpiredStreams(now: real)
      modifies this`streams
      ensures streams == Prune(old(streams), cfg, now)
    {
      var kept: seq<Record> := [];
      for i := 0 to |streams|
        invariant streams == old(streams) && kept == Prune(streams[..i], cfg, now)
      {
        PruneSnoc(streams, i, cfg, now);
        if streams[i].lastEventAt >= now - cfg.ttl {
          kept := kept + [streams[i]];
        }
      }
      assert streams[..|streams|] == streams;
      streams := kept;
    }

    method Find(sid: StreamId) returns (i: nat)
      ensures i == IndexOf(streams, sid)
    {
      i := 0;
      while i < |streams| && streams[i].sid != sid
        invariant i <= |streams| && forall j :: 0 <= j < i ==> streams[j].sid != sid
      {
        i := i + 1;
      }
    }

    method GetOrCreateStream(sid: StreamId, now: real) returns (i: Option<nat>)
      modifies this`streams
      ensures var g := GetOrCreate(old(streams), cfg, sid, now);
              if g.None? then i.None? && streams == old(streams)
              else streams == g.value && i == Some(IndexOf(streams, sid)) && i.value < |streams|
    {
      LastIsHeld(streams, cfg, sid, now);
      var at := Find(sid);
      if at < |streams| {
        return Some(at);
      }
      if |streams| >= cfg.maxStreams {
        if streams == [] {
          return None;
        }
        streams := streams[1..];
      }
      streams := streams + [Record(sid, [], now, now)];
      at := Find(sid);
      i := Some(at);
    }

    method StoreEvent(sid: StreamId, message: Option<Message>, now: real) returns (id: Option<int>)
      requires Valid()
      modifies this
      ensures Valid() && View() == Step(cfg, old(View()), StoreOp(sid, message, now))
      ensures id == StoreStep(cfg, old(View()).state, sid, message, now).1
      ensures id.Some? ==> id.value == old(|log|) && log == old(log) + [Issued(sid, Event(id.value, message))]
    {
      StoreKeepsInv(cfg, View(), sid, message, now);
      PruneExpiredStreams(now);
      var at := GetOrCreateStream(sid, now);
      if at.None? {
        return None;
      }
      var e := Event(nextId, message);
      nextId := nextId + 1;
      Push(at.value, e, now);
      log := log + [Issued(sid, e)];
      id := Some(e.id);
    }

    /** Append to the bounded deque of one record. */
    method Push(at: nat, e: Event, now: real)
      requires at < |streams|
      modifies this`streams
      ensures var r := old(streams)[at];
              streams == old(streams)[at := r.(events := Ring(cfg.maxEvents, r.events + [e]), lastEventAt := now)]
    {
      var r := streams[at];
      var events := r.events + [e];
      if |events| > cfg.maxEvents {
        events := events[|events| - cfg.maxEvents..];
      }
      streams := streams[at := r.(events := events, lastEventAt := now)];
    }

    method ReplayEventsAfter(target: Option<int>, now: real) returns (found: Option<StreamId>, sent: seq<Event>)
      requires Valid()
      modifies this`streams
      ensures Valid() && View() == Step(cfg, old(View()), ReplayOp(target, now))
      ensures Answer(found, sent) == ReplayStep(old(View()).state, target, now).1
      ensures found.Some? ==> forall i :: 0 <= i < |streams| && streams[i].sid == found.value ==>
                streams[i].lastEventAt == now
      ensures forall sid :: target.Some? && Buffered(old(View()), sid, target.value) ==>
                found == Some(sid) && ExactlyAfter(log, sid, target.value, sent)
    {
      ReplayRefreshes(cfg, View(), target, now);
      ResumeKeepsInv(cfg, View(), [ReplayOp(target, now)]);
      assert Resume(cfg, View(), []) == View();
      if target.None? {
        return None, [];
      }
      ghost var before := View();
      var t := target.value;
      var chosen := Choose(t);
      if chosen.None? {
        found, sent := None, [];
      } else {
        var r := streams[chosen.value];
        sent := Collect(r.events, t);
        found := Some(r.sid);
        streams := streams[chosen.value := r.(lastEventAt := now)];
      }
      forall sid | Buffered(before, sid, t) ensures found == Some(sid) && ExactlyAfter(log, sid, t, sent) {
        GapFreeAt(cfg, before, sid, t);
      }
    }

    /** Pass 1, then pass 2: the only stream that is wholly younger than the id. */
    method Choose(t: int) returns (chosen: Option<nat>)
      ensures chosen == Selected(streams, t)
    {
      var holder := FindHolder(t);
      if holder < |streams| {
        return Some(holder);
      }
      var candidates: seq<nat> := [];
      for i := 0 to |streams|
        invariant candidates == Candidates(streams, t, i)
      {
        if streams[i].events != [] && streams[i].events[0].id > t {
          candidates := candidates + [i];
        }
      }
      chosen := if |candidates| == 1 then Some(candidates[0]) else None;
    }

    method Collect(events: seq<Event>, t: int) returns (sent: seq<Event>)
      ensures sent == Deliver(events, t)
    {
      sent := [];
      for i := 0 to |events|
        invariant sent == Deliver(events[..i], t)
      {
        DeliverSnoc(events, i, t);
        if events[i].id > t && events[i].message.Some? {
          sent := sent + [events[i]];
        }
      }
      assert events[..|events|] == events;
    }

    /** Pass 1: scan every buffer for the exact id. */
    method FindHolder(t: int) returns (chosen: nat)
      ensures chosen == Holder(streams, t)
    {
      chosen := 0;
      while chosen < |streams|
        invariant chosen <= |streams| && forall j :: 0 <= j < chosen ==> !HasId(streams[j].events, t)
      {
        var events := streams[chosen].events;
        for i := 0 to |events|
          invariant forall j :: 0 <= j < i ==> events[j].id != t
        {
          if events[i].id == t {
            return;
          }
        }
        chosen := chosen + 1;
      }
    }
  }
}

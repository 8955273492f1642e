/** A room actor: it serializes joins, clips and disconnects of a room's two members, keeps the routing
    set and the in-memory mailbox, and fills the members' outboxes. Outcomes of outbox and registry
    calls are part of the events. */
module Room {
  import opened Prelude
  import P = Protocol

  type Fp = Bytes
  type ConnId = nat

  datatype Clip = Clip(origin: Fp, cipher: string)

  /** The registry admits exactly two distinct identities to a room. */
  datatype Members = Members(a: Fp, b: Fp)

  predicate Valid(m: Members)
  {
    m.a != m.b
  }

  function All(m: Members): (fps: set<Fp>)
  {
    {m.a, m.b}
  }

  function Other(m: Members, fp: Fp): (other: Fp)
  {
    if fp == m.a then m.b else m.a
  }

  /** A frame the actor enqueues on a connection. */
  datatype Out = JoinOk | Boot(clip: Clip) | Empty | LiveOut(clip: Clip) | ErrorOut

  function EventOf(o: Out): (e: P.FrameEvent)
  {
    match o
    case JoinOk => P.JoinOk
    case Boot(_) => P.MailboxClip
    case Empty => P.MailboxEmpty
    case LiveOut(_) => P.LiveClip
    case ErrorOut => P.Error
  }

  function EventsOf(wire: seq<Out>): (frames: seq<P.FrameEvent>)
    ensures |frames| == |wire|
  {
    seq(|wire|, i requires 0 <= i < |wire| => EventOf(wire[i]))
  }

  /** What became of a clip that was processed for a member. */
  datatype Fate = Delivered | Waiting | Overwritten | ConsumedByFailedJoin | Overflowed

  /** The history of one recipient: the clips the actor processed for it, what became of each, the
      clips enqueued to it, and its successful joins in order. */
  datatype Track = Track(processed: seq<Clip>, fates: seq<Fate>, delivered: seq<Clip>, conns: seq<ConnId>)

  /** `wires` logs the frames enqueued per connection, `stored` the last `clip_pending` call (or the
      clip found at spawn), `used` the connections that ever joined. */
  datatype State = State(online: map<Fp, ConnId>, pending: map<Fp, Clip>, wires: map<ConnId, seq<Out>>,
                         tracks: map<Fp, Track>, stored: Option<(Fp, Clip)>, used: set<ConnId>, open: bool)

  datatype JoinEnv = JoinEnv(okReserved: bool, bootReserved: bool, activated: bool, errorSent: bool)
  datatype ClipEnv = ClipEnv(sent: bool, errorSent: bool)

  datatype Event =
    | Join(fp: Fp, conn: ConnId, jenv: JoinEnv)
    | Send(fp: Fp, conn: ConnId, cipher: string, cenv: ClipEnv)
    | Disconnect(fp: Fp, conn: ConnId)

  // ---- Histories ----

  /** The clips whose fate is `Delivered`, in order. */
  function Select(processed: seq<Clip>, fates: seq<Fate>): (clips: seq<Clip>)
    requires |processed| == |fates|
    decreases |fates|
  {
    if fates == [] then []
    else
      var n := |fates| - 1;
      Select(processed[..n], fates[..n]) + if fates[n].Delivered? then [processed[n]] else []
  }

  /** The clip that was waiting, if any, meets its fate. */
  function Resolve(t: Track, fate: Fate): (t': Track)
  {
    if t.fates != [] && Last(t.fates).Waiting? then
      t.(fates := t.fates[|t.fates| - 1 := fate],
         delivered := if fate.Delivered? && |t.processed| == |t.fates| then t.delivered + [Last(t.processed)]
                      else t.delivered)
    else t
  }

  /** A further clip is processed for the member. */
  function Append(t: Track, clip: Clip, fate: Fate): (t': Track)
  {
    t.(processed := t.processed + [clip], fates := t.fates + [fate],
       delivered := if fate.Delivered? then t.delivered + [clip] else t.delivered)
  }

  // ---- Steps ----

  predicate Joins(env: JoinEnv)
  {
    env.okReserved && env.bootReserved && env.activated
  }

  function JoinWire(s: State, fp: Fp, env: JoinEnv): (wire: seq<Out>)
  {
    if Joins(env) then [JoinOk, if fp in s.pending then Boot(s.pending[fp]) else Empty]
    else if env.okReserved && env.bootReserved && env.errorSent then [ErrorOut]
    else []
  }

  function TrackOf(s: State, fp: Fp): (t: Track)
  {
    if fp in s.tracks then s.tracks[fp] else Track([], [], [], [])
  }

  function WireOf(wires: map<ConnId, seq<Out>>, c: ConnId): (wire: seq<Out>)
  {
    if c in wires then wires[c] else []
  }

  function OnJoin(s: State, fp: Fp, conn: ConnId, env: JoinEnv): (s': State)
  {
    var t := Resolve(TrackOf(s, fp), if Joins(env) then Delivered else ConsumedByFailedJoin);
    s.(online := if Joins(env) then s.online[fp := conn] else s.online - {fp},
       pending := s.pending - {fp},
       wires := s.wires[conn := JoinWire(s, fp, env)],
       tracks := s.tracks[fp := if Joins(env) then t.(conns := t.conns + [conn]) else t],
       used := s.used + {conn})
  }

  predicate Current(s: State, fp: Fp, conn: ConnId)
  {
    fp in s.online && s.online[fp] == conn
  }

  function Route(s: State, to: Fp, clip: Clip, env: ClipEnv): (s': State)
  {
    var t := TrackOf(s, to);
    if to !in s.online then
      s.(pending := s.pending[to := clip], stored := Some((to, clip)),
         tracks := s.tracks[to := Append(Resolve(t, Overwritten), clip, Waiting)])
    else
      var c := s.online[to];
      if env.sent then
        s.(wires := s.wires[c := WireOf(s.wires, c) + [LiveOut(clip)]],
           tracks := s.tracks[to := Append(t, clip, Delivered)])
      else
        s.(online := s.online - {to},
           wires := if env.errorSent then s.wires[c := WireOf(s.wires, c) + [ErrorOut]] else s.wires,
           tracks := s.tracks[to := Append(t, clip, Overflowed)])
  }

  function OnDisconnect(s: State, fp: Fp, conn: ConnId): (s': State)
  {
    var online := if Current(s, fp, conn) then s.online - {fp} else s.online;
    s.(online := online, open := online != map[])
  }

  /** Each connection joins at most once, and only members join. */
  predicate Enabled(m: Members, s: State, e: Event)
  {
    s.open && (e.Join? ==> e.fp in All(m) && e.conn !in s.used)
  }

  function Step(m: Members, s: State, e: Event): (s': State)
    requires Enabled(m, s, e)
  {
    match e
    case Join(fp, conn, env) => OnJoin(s, fp, conn, env)
    case Send(fp, conn, cipher, env) =>
      if Current(s, fp, conn) then Route(s, Other(m, fp), Clip(fp, cipher), env) else s
    case Disconnect(fp, conn) => OnDisconnect(s, fp, conn)
  }

  predicate Legal(m: Members, s: State, events: seq<Event>)
    decreases |events|
  {
    events == [] || (Enabled(m, s, events[0]) && Legal(m, Step(m, s, events[0]), events[1..]))
  }

  function Run(m: Members, s: State, events: seq<Event>): (s': State)
    requires Legal(m, s, events)
    decreases |events|
  {
    if events == [] then s else Run(m, Step(m, s, events[0]), events[1..])
  }

  /** A freshly spawned actor, with what the mailbox handed it. */
  function Spawn(m: Members, loaded: Option<(Fp, Clip)>): (s: State)
    requires Valid(m) && (loaded.Some? ==> loaded.value.0 in All(m))
  {
    var blank := Track([], [], [], []);
    var start := map[m.a := blank, m.b := blank];
    if loaded.None? then State(map[], map[], map[], start, None, {}, true)
    else
      State(map[], map[loaded.value.0 := loaded.value.1], map[],
            start[loaded.value.0 := Append(blank, loaded.value.1, Waiting)], loaded, {}, true)
  }

  // ---- Histories stay exact ----

  predicate TrackInv(t: Track, waiting: Option<Clip>)
  {
    && |t.fates| == |t.processed|
    && t.delivered == Select(t.processed, t.fates)
    && (forall i :: 0 <= i < |t.fates| && t.fates[i].Waiting? ==> i == |t.fates| - 1)
    && (forall i :: 0 <= i < |t.fates| && t.fates[i].Overwritten? ==> i + 1 < |t.fates| && !t.fates[i + 1].Overflowed?)
    && (waiting.Some? <==> t.fates != [] && Last(t.fates).Waiting?)
    && (waiting.Some? ==> Last(t.processed) == waiting.value)
  }

  function PendingOf(s: State, fp: Fp): (clip: Option<Clip>)
  {
    if fp in s.pending then Some(s.pending[fp]) else None
  }

  lemma {:induction false} ResolveKeeps(t: Track, waiting: Option<Clip>, fate: Fate)
    requires TrackInv(t, waiting) && (fate.Delivered? || fate.ConsumedByFailedJoin?)
    ensures TrackInv(Resolve(t, fate), None)
  {
  }

  lemma {:induction false} AppendKeeps(t: Track, clip: Clip, fate: Fate)
    requires TrackInv(t, None) && (fate.Delivered? || fate.Overflowed?)
    requires forall i :: 0 <= i < |t.fates| && t.fates[i].Overwritten? ==> i + 1 < |t.fates|
    ensures TrackInv(Append(t, clip, fate), None)
  {
  }

  /** The waiting clip is overwritten; a clip that will be stored follows. */
  predicate OverwrittenInv(t: Track)
  {
    && |t.fates| == |t.processed| && t.delivered == Select(t.processed, t.fates)
    && (forall i :: 0 <= i < |t.fates| ==> !t.fates[i].Waiting?)
    && (forall i :: 0 <= i < |t.fates| - 1 && t.fates[i].Overwritten? ==> !t.fates[i + 1].Overflowed?)
  }

  lemma {:induction false} OverwriteKeeps(t: Track, waiting: Option<Clip>)
    requires TrackInv(t, waiting)
    ensures OverwrittenInv(Resolve(t, Overwritten))
  {
  }

  lemma {:induction false} StoreKeeps(t: Track, clip: Clip)
    requires OverwrittenInv(t)
    ensures TrackInv(Append(t, clip, Waiting), Some(clip))
  {
  }

  // ---- The one-snapshot mailbox ----

  /** Nobody is both online and waited for, and what waits is the last clip handed to the mailbox. */
  predicate MailboxInv(m: Members, s: State)
  {
    && s.online.Keys <= All(m) && s.pending.Keys <= All(m)
    && (forall fp :: fp in s.pending ==> fp !in s.online && s.stored == Some((fp, s.pending[fp])))
  }

  lemma {:induction false} StepKeepsMailbox(m: Members, s: State, e: Event)
    requires Valid(m) && MailboxInv(m, s) && Enabled(m, s, e)
    ensures MailboxInv(m, Step(m, s, e))
  {
  }

  // ---- Histories ----

  predicate TracksInv(m: Members, s: State)
  {
    forall fp :: fp in All(m) ==> TrackInv(TrackOf(s, fp), PendingOf(s, fp))
  }

  lemma {:induction false} OneTrackChanges(m: Members, s: State, s': State, fp: Fp, t: Track)
    requires TracksInv(m, s) && s'.tracks == s.tracks[fp := t] && TrackInv(t, PendingOf(s', fp))
    requires s'.pending - {fp} == s.pending - {fp}
    ensures TracksInv(m, s')
  {
    forall x | x in All(m)
      ensures TrackInv(TrackOf(s', x), PendingOf(s', x))
    {
      if x != fp {
        assert x in s.pending <==> x in s.pending - {fp};
        assert x in s'.pending <==> x in s'.pending - {fp};
        assert TrackOf(s', x) == TrackOf(s, x) && PendingOf(s', x) == PendingOf(s, x);
      }
    }
  }

  lemma {:induction false} JoinKeepsTracks(m: Members, s: State, fp: Fp, conn: ConnId, env: JoinEnv)
    requires TracksInv(m, s) && fp in All(m)
    ensures TracksInv(m, OnJoin(s, fp, conn, env))
  {
    var fate := if Joins(env) then Delivered else ConsumedByFailedJoin;
    ResolveKeeps(TrackOf(s, fp), PendingOf(s, fp), fate);
    var t := Resolve(TrackOf(s, fp), fate);
    var s' := OnJoin(s, fp, conn, env);
    OneTrackChanges(m, s, s', fp, if Joins(env) then t.(conns := t.conns + [conn]) else t);
  }

  lemma {:induction false} StoreKeepsTracks(m: Members, s: State, to: Fp, clip: Clip, env: ClipEnv)
    requires TracksInv(m, s) && to in All(m) && to !in s.online
    ensures TracksInv(m, Route(s, to, clip, env))
  {
    OverwriteKeeps(TrackOf(s, to), PendingOf(s, to));
    StoreKeeps(Resolve(TrackOf(s, to), Overwritten), clip);
    OneTrackChanges(m, s, Route(s, to, clip, env), to, Append(Resolve(TrackOf(s, to), Overwritten), clip, Waiting));
  }

  lemma {:induction false} SendKeepsTracks(m: Members, s: State, to: Fp, clip: Clip, env: ClipEnv)
    requires TracksInv(m, s) && to in All(m) && to in s.online && to !in s.pending
    ensures TracksInv(m, Route(s, to, clip, env))
  {
    var t := Append(TrackOf(s, to), clip, if env.sent then Delivered else Overflowed);
    AppendKeeps(TrackOf(s, to), clip, if env.sent then Delivered else Overflowed);
    OneTrackChanges(m, s, Route(s, to, clip, env), to, t);
  }

  lemma {:induction false} RouteKeepsTracks(m: Members, s: State, to: Fp, clip: Clip, env: ClipEnv)
    requires TracksInv(m, s) && MailboxInv(m, s) && to in All(m)
    ensures TracksInv(m, Route(s, to, clip, env))
  {
    if to in s.online {
      SendKeepsTracks(m, s, to, clip, env);
    } else {
      StoreKeepsTracks(m, s, to, clip, env);
    }
  }

  lemma {:induction false} StepKeepsTracks(m: Members, s: State, e: Event)
    requires TracksInv(m, s) && MailboxInv(m, s) && Enabled(m, s, e)
    ensures TracksInv(m, Step(m, s, e))
  {
    match e
    case Join(fp, conn, env) => JoinKeepsTracks(m, s, fp, conn, env);
    case Send(fp, conn, cipher, env) => RouteKeepsTracks(m, s, Other(m, fp), Clip(fp, cipher), env);
    case Disconnect(_, _) =>
  }

  // ---- Frame order on every connection ----

  function Reached(wires: map<ConnId, seq<Out>>, c: ConnId): (state: Option<P.ConnectionState>)
  {
    P.After(P.AwaitingJoinOk, EventsOf(WireOf(wires, c)))
  }

  predicate WiresInv(s: State)
  {
    && s.wires.Keys == s.used
    && (forall c :: c in s.used ==> Reached(s.wires, c).Some?)
    && (forall fp :: fp in s.online ==> s.online[fp] in s.used && Reached(s.wires, s.online[fp]) == Some(P.Live))
  }

  /** No connection is current for two members. */
  predicate Injective(online: map<Fp, ConnId>)
  {
    forall x, y :: x in online && y in online && online[x] == online[y] ==> x == y
  }

  lemma {:induction false} JoinedWire(s: State, fp: Fp, env: JoinEnv)
    ensures P.After(P.AwaitingJoinOk, EventsOf(JoinWire(s, fp, env))).Some?
    ensures Joins(env) ==> P.After(P.AwaitingJoinOk, EventsOf(JoinWire(s, fp, env))) == Some(P.Live)
  {
    var frames := EventsOf(JoinWire(s, fp, env));
    if Joins(env) {
      assert frames[1..][1..] == [];
      assert P.After(P.Bootstrap, frames[1..]) == Some(P.Live);
    }
  }

  lemma {:induction false} WireGrows(wire: seq<Out>, o: Out)
    requires P.After(P.AwaitingJoinOk, EventsOf(wire)) == Some(P.Live) && (o.LiveOut? || o.ErrorOut?)
    ensures P.After(P.AwaitingJoinOk, EventsOf(wire + [o])) == Some(if o.LiveOut? then P.Live else P.Closed)
  {
    assert EventsOf(wire + [o]) == EventsOf(wire) + [EventOf(o)];
    P.AfterAppend(P.AwaitingJoinOk, EventsOf(wire), [EventOf(o)]);
    assert [EventOf(o)][1..] == [];
  }

  lemma {:induction false} JoinKeepsWires(s: State, fp: Fp, conn: ConnId, env: JoinEnv)
    requires WiresInv(s) && conn !in s.used
    ensures WiresInv(OnJoin(s, fp, conn, env))
  {
    JoinedWire(s, fp, env);
    var s' := OnJoin(s, fp, conn, env);
    assert forall c :: c in s.used ==> Reached(s'.wires, c) == Reached(s.wires, c);
  }

  lemma {:induction false} LiveKeepsWires(s: State, to: Fp, clip: Clip, env: ClipEnv)
    requires WiresInv(s) && to in s.online && env.sent
    ensures WiresInv(Route(s, to, clip, env))
  {
    var c := s.online[to];
    var s' := Route(s, to, clip, env);
    WireGrows(WireOf(s.wires, c), LiveOut(clip));
    assert forall d :: d in s.used && d != c ==> Reached(s'.wires, d) == Reached(s.wires, d);
  }

  lemma {:induction false} OverflowKeepsWires(s: State, to: Fp, clip: Clip, env: ClipEnv)
    requires WiresInv(s) && Injective(s.online) && to in s.online && !env.sent
    ensures WiresInv(Route(s, to, clip, env))
  {
    var c := s.online[to];
    var s' := Route(s, to, clip, env);
    WireGrows(WireOf(s.wires, c), ErrorOut);
    assert forall d :: d in s.used && d != c ==> Reached(s'.wires, d) == Reached(s.wires, d);
    assert Reached(s'.wires, c).Some?;
  }

  lemma {:induction false} StepKeepsInjective(m: Members, s: State, e: Event)
    requires WiresInv(s) && Injective(s.online) && Enabled(m, s, e)
    ensures Injective(Step(m, s, e).online)
  {
  }

  lemma {:induction false} StepKeepsWires(m: Members, s: State, e: Event)
    requires WiresInv(s) && Injective(s.online) && Enabled(m, s, e)
    ensures WiresInv(Step(m, s, e))
  {
    match e
    case Join(fp, conn, env) => JoinKeepsWires(s, fp, conn, env);
    case Send(fp, conn, cipher, env) =>
      if Other(m, fp) in s.online {
        if env.sent {
          LiveKeepsWires(s, Other(m, fp), Clip(fp, cipher), env);
        } else {
          OverflowKeepsWires(s, Other(m, fp), Clip(fp, cipher), env);
        }
      }
    case Disconnect(_, _) =>
  }

  // ---- What a member is sent, connection by connection ----

  /** The clips among the frames of one connection, in order. */
  function ClipsOn(wire: seq<Out>): (clips: seq<Clip>)
    decreases |wire|
  {
    if wire == [] then []
    else
      var n := |wire| - 1;
      ClipsOn(wire[..n]) + if wire[n].Boot? || wire[n].LiveOut? then [wire[n].clip] else []
  }

  /** The clips of several connections, one connection after the other. */
  function Sent(wires: map<ConnId, seq<Out>>, conns: seq<ConnId>): (clips: seq<Clip>)
    decreases |conns|
  {
    if conns == [] then [] else Sent(wires, conns[..|conns| - 1]) + ClipsOn(WireOf(wires, Last(conns)))
  }

  predicate Distinct(conns: seq<ConnId>)
  {
    forall i, j :: 0 <= i < j < |conns| ==> conns[i] != conns[j]
  }

  function CurrentOf(s: State, fp: Fp): (c: Option<ConnId>)
  {
    if fp in s.online then Some(s.online[fp]) else None
  }

  /** The member's current connection is its latest join, and it was sent what its connections carried. */
  predicate ConnsAt(t: Track, current: Option<ConnId>, wires: map<ConnId, seq<Out>>, used: set<ConnId>)
  {
    && Distinct(t.conns) && (forall c :: c in t.conns ==> c in used)
    && (current.Some? ==> t.conns != [] && Last(t.conns) == current.value)
    && t.delivered == Sent(wires, t.conns)
  }

  predicate ConnsOk(s: State, fp: Fp)
  {
    ConnsAt(TrackOf(s, fp), CurrentOf(s, fp), s.wires, s.used)
  }

  predicate Apart(s: State, x: Fp, y: Fp)
  {
    forall c :: c in TrackOf(s, x).conns ==> c !in TrackOf(s, y).conns
  }

  predicate ConnsInv(m: Members, s: State)
  {
    ConnsOk(s, m.a) && ConnsOk(s, m.b) && Apart(s, m.a, m.b)
  }

  lemma {:induction false} SentFrame(wires: map<ConnId, seq<Out>>, wires': map<ConnId, seq<Out>>, conns: seq<ConnId>)
    requires forall c :: c in conns ==> WireOf(wires', c) == WireOf(wires, c)
    ensures Sent(wires', conns) == Sent(wires, conns)
    decreases |conns|
  {
    if conns != [] {
      SentFrame(wires, wires', conns[..|conns| - 1]);
    }
  }

  lemma {:induction false} SentGrows(wires: map<ConnId, seq<Out>>, conns: seq<ConnId>, o: Out)
    requires conns != [] && Distinct(conns)
    ensures var c := Last(conns);
            Sent(wires[c := WireOf(wires, c) + [o]], conns)
            == Sent(wires, conns) + if o.Boot? || o.LiveOut? then [o.clip] else []
  {
    var c := Last(conns);
    var wires' := wires[c := WireOf(wires, c) + [o]];
    SentFrame(wires, wires', conns[..|conns| - 1]);
    assert (WireOf(wires, c) + [o])[..|WireOf(wires, c)|] == WireOf(wires, c);
  }

  lemma {:induction false} SentJoins(wires: map<ConnId, seq<Out>>, conns: seq<ConnId>, c: ConnId, wire: seq<Out>)
    requires c !in conns
    ensures Sent(wires[c := wire], conns) == Sent(wires, conns)
    ensures Sent(wires[c := wire], conns + [c]) == Sent(wires, conns) + ClipsOn(wire)
  {
    SentFrame(wires, wires[c := wire], conns);
    assert (conns + [c])[..|conns|] == conns;
  }

  lemma {:induction false} JoinWireClips(s: State, fp: Fp, env: JoinEnv)
    requires Joins(env)
    ensures ClipsOn(JoinWire(s, fp, env)) == if fp in s.pending then [s.pending[fp]] else []
  {
    var wire := JoinWire(s, fp, env);
    assert wire[..1] == [JoinOk] && ClipsOn([JoinOk]) == ClipsOn([JoinOk][..0]);
  }

  lemma {:induction false} JoinedConns(t: Track, t': Track, wires: map<ConnId, seq<Out>>, used: set<ConnId>,
                                       conn: ConnId, wire: seq<Out>)
    requires ConnsAt(t, None, wires, used) && conn !in used
    requires t'.conns == t.conns + [conn] && t'.delivered == t.delivered + ClipsOn(wire)
    ensures ConnsAt(t', Some(conn), wires[conn := wire], used + {conn})
  {
    SentJoins(wires, t.conns, conn, wire);
  }

  lemma {:induction false} UnjoinedConns(t: Track, t': Track, current: Option<ConnId>, wires: map<ConnId, seq<Out>>,
                                         used: set<ConnId>, conn: ConnId, wire: seq<Out>)
    requires ConnsAt(t, current, wires, used) && conn !in used && t'.conns == t.conns && t'.delivered == t.delivered
    ensures ConnsAt(t', current, wires[conn := wire], used + {conn})
  {
    SentJoins(wires, t.conns, conn, wire);
  }

  lemma {:induction false} ResolvedByJoin(s: State, fp: Fp, env: JoinEnv)
    requires TrackInv(TrackOf(s, fp), PendingOf(s, fp)) && Joins(env)
    ensures var t := TrackOf(s, fp);
            Resolve(t, Delivered).conns == t.conns
            && Resolve(t, Delivered).delivered == t.delivered + ClipsOn(JoinWire(s, fp, env))
  {
    JoinWireClips(s, fp, env);
  }

  lemma {:induction false} JoinKeepsOwnConns(s: State, fp: Fp, conn: ConnId, env: JoinEnv)
    requires ConnsOk(s, fp) && TrackInv(TrackOf(s, fp), PendingOf(s, fp)) && conn !in s.used
    ensures ConnsOk(OnJoin(s, fp, conn, env), fp)
  {
    var t, s' := TrackOf(s, fp), OnJoin(s, fp, conn, env);
    if Joins(env) {
      ResolvedByJoin(s, fp, env);
      JoinedConns(t, TrackOf(s', fp), s.wires, s.used, conn, JoinWire(s, fp, env));
    } else {
      UnjoinedConns(t, TrackOf(s', fp), None, s.wires, s.used, conn, JoinWire(s, fp, env));
    }
  }

  lemma {:induction false} JoinKeepsOtherConns(s: State, fp: Fp, conn: ConnId, env: JoinEnv, other: Fp)
    requires ConnsOk(s, other) && conn !in s.used && fp != other
    ensures ConnsOk(OnJoin(s, fp, conn, env), other) && TrackOf(OnJoin(s, fp, conn, env), other) == TrackOf(s, other)
  {
    var t := TrackOf(s, other);
    UnjoinedConns(t, t, CurrentOf(s, other), s.wires, s.used, conn, JoinWire(s, fp, env));
    assert CurrentOf(OnJoin(s, fp, conn, env), other) == CurrentOf(s, other);
  }

  lemma {:induction false} JoinKeepsApart(m: Members, s: State, fp: Fp, conn: ConnId, env: JoinEnv)
    requires Valid(m) && ConnsInv(m, s) && fp in All(m) && conn !in s.used
    ensures Apart(OnJoin(s, fp, conn, env), m.a, m.b)
  {
  }

  lemma {:induction false} BothConns(m: Members, s: State, fp: Fp)
    requires fp in All(m) && ConnsOk(s, fp) && ConnsOk(s, Other(m, fp)) && Apart(s, m.a, m.b)
    ensures ConnsInv(m, s)
  {
  }

  lemma {:induction false} JoinKeepsConns(m: Members, s: State, fp: Fp, conn: ConnId, env: JoinEnv)
    requires Valid(m) && ConnsInv(m, s) && TracksInv(m, s) && fp in All(m) && conn !in s.used
    ensures ConnsInv(m, OnJoin(s, fp, conn, env))
  {
    JoinKeepsOwnConns(s, fp, conn, env);
    JoinKeepsOtherConns(s, fp, conn, env, Other(m, fp));
    JoinKeepsApart(m, s, fp, conn, env);
    BothConns(m, OnJoin(s, fp, conn, env), fp);
  }

  lemma {:induction false} GrownConns(t: Track, t': Track, wires: map<ConnId, seq<Out>>, used: set<ConnId>,
                                      c: ConnId, o: Out)
    requires ConnsAt(t, Some(c), wires, used) && t'.conns == t.conns
    requires t'.delivered == t.delivered + if o.Boot? || o.LiveOut? then [o.clip] else []
    ensures ConnsAt(t', Some(c), wires[c := WireOf(wires, c) + [o]], used)
  {
    SentGrows(wires, t.conns, o);
  }

  lemma {:induction false} LiveKeepsOwnConns(s: State, to: Fp, clip: Clip, env: ClipEnv)
    requires ConnsOk(s, to) && to in s.online && env.sent
    ensures ConnsOk(Route(s, to, clip, env), to)
  {
    GrownConns(TrackOf(s, to), Append(TrackOf(s, to), clip, Delivered), s.wires, s.used, s.online[to], LiveOut(clip));
  }

  lemma {:induction false} OverflowKeepsOwnConns(s: State, to: Fp, clip: Clip, env: ClipEnv)
    requires ConnsOk(s, to) && to in s.online && !env.sent
    ensures ConnsOk(Route(s, to, clip, env), to)
  {
    GrownConns(TrackOf(s, to), Append(TrackOf(s, to), clip, Overflowed), s.wires, s.used, s.online[to], ErrorOut);
  }

  lemma {:induction false} StoreKeepsOwnConns(s: State, to: Fp, clip: Clip, env: ClipEnv)
    requires ConnsOk(s, to) && to !in s.online
    ensures ConnsOk(Route(s, to, clip, env), to)
  {
  }

  lemma {:induction false} RouteKeepsOwnConns(s: State, to: Fp, clip: Clip, env: ClipEnv)
    requires ConnsOk(s, to)
    ensures ConnsOk(Route(s, to, clip, env), to)
  {
    if to !in s.online {
      StoreKeepsOwnConns(s, to, clip, env);
    } else if env.sent {
      LiveKeepsOwnConns(s, to, clip, env);
    } else {
      OverflowKeepsOwnConns(s, to, clip, env);
    }
  }

  lemma {:induction false} RouteKeepsOtherConns(s: State, to: Fp, clip: Clip, env: ClipEnv, other: Fp)
    requires ConnsOk(s, other) && ConnsOk(s, to) && to != other && (Apart(s, to, other) || Apart(s, other, to))
    ensures ConnsOk(Route(s, to, clip, env), other)
  {
    var s' := Route(s, to, clip, env);
    assert TrackOf(s', other) == TrackOf(s, other) && CurrentOf(s', other) == CurrentOf(s, other) && s'.used == s.used;
    assert to in s.online ==> s.online[to] in TrackOf(s, to).conns;
    SentFrame(s.wires, s'.wires, TrackOf(s, other).conns);
  }

  lemma {:induction false} RouteKeepsApart(s: State, to: Fp, clip: Clip, env: ClipEnv, x: Fp, y: Fp)
    requires Apart(s, x, y)
    ensures Apart(Route(s, to, clip, env), x, y)
  {
    var s' := Route(s, to, clip, env);
    assert TrackOf(s', to).conns == TrackOf(s, to).conns;
    assert forall z :: z != to ==> TrackOf(s', z) == TrackOf(s, z);
  }

  lemma {:induction false} RouteKeepsConns(m: Members, s: State, to: Fp, clip: Clip, env: ClipEnv)
    requires Valid(m) && ConnsInv(m, s) && to in All(m)
    ensures ConnsInv(m, Route(s, to, clip, env))
  {
    RouteKeepsOwnConns(s, to, clip, env);
    RouteKeepsOtherConns(s, to, clip, env, Other(m, to));
    RouteKeepsApart(s, to, clip, env, m.a, m.b);
    BothConns(m, Route(s, to, clip, env), to);
  }

  lemma {:induction false} StepKeepsConns(m: Members, s: State, e: Event)
    requires Valid(m) && ConnsInv(m, s) && TracksInv(m, s) && Enabled(m, s, e)
    ensures ConnsInv(m, Step(m, s, e))
  {
    match e
    case Join(fp, conn, env) => JoinKeepsConns(m, s, fp, conn, env);
    case Send(fp, conn, cipher, env) => RouteKeepsConns(m, s, Other(m, fp), Clip(fp, cipher), env);
    case Disconnect(_, _) =>
  }
}

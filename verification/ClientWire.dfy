/** One connection seen from its client: what the room actor enqueues goes through the connection's bounded outbox,
    beside the one error the connection's own handler may enqueue, and the writer takes it out in order. The actor's
    frames may lag behind its decisions, and everybody's accesses to the outbox interleave. */
module ClientWire {
  import opened Prelude
  import P = Protocol
  import R = Room
  import T = RoomTheorems
  import O = Outbox

  /** `todo` are frames the actor has still to enqueue; `own` is where the handler's error stands, counted from the
      frames enqueued since the join. */
  datatype State = State(actor: R.State, box: O.State, todo: seq<R.Out>, own: Option<nat>)

  /** `carry` says which frame a unit of the outbox is; `base` frames were enqueued before the join. */
  datatype Link = Link(m: R.Members, conn: R.ConnId, limits: O.Limits, carry: nat -> R.Out, base: nat)

  /** The actor decides, and enqueues a frame it has decided on; the handler enqueues its error; others, the writer
      among them, use the outbox without enqueuing a frame. */
  datatype Event = Decide(e: R.Event) | Tell(x: O.Event) | Fail(x: O.Event) | Use(x: O.Event)

  /** The frames among the units, in order. */
  function Carried(carry: nat -> R.Out, units: seq<O.Unit>): (frames: seq<R.Out>)
    decreases |units|
  {
    if units == [] then []
    else
      var u := Last(units);
      Carried(carry, units[..|units| - 1]) + if u.Frame? then [carry(u.id)] else []
  }

  lemma {:induction false} CarriedAppend(carry: nat -> R.Out, a: seq<O.Unit>, b: seq<O.Unit>)
    ensures Carried(carry, a + b) == Carried(carry, a) + Carried(carry, b)
    decreases |b|
  {
    if b == [] {
      assert a + b == a;
    } else {
      var n := |b| - 1;
      assert (a + b)[..|a + b| - 1] == a + b[..n] && Last(a + b) == Last(b);
      CarriedAppend(carry, a, b[..n]);
    }
  }

  /** Everything enqueued so far. */
  function Pushed(k: Link, s: State): (frames: seq<R.Out>)
  {
    Carried(k.carry, s.box.pushed)
  }

  /** The frames a decision adds for this connection. */
  function Added(k: Link, s: R.State, e: R.Event): (frames: seq<R.Out>)
    requires R.Enabled(k.m, s, e)
  {
    var wire, wire' := R.WireOf(s.wires, k.conn), R.WireOf(R.Step(k.m, s, e).wires, k.conn);
    if |wire| <= |wire'| then wire'[|wire|..] else []
  }

  /** The access enqueues these frames and no others. */
  predicate Pushes(k: Link, s: State, x: O.Event, frames: seq<R.Out>)
    requires O.Enabled(k.limits, s.box, x)
  {
    Carried(k.carry, O.Step(k.limits, s.box, x).pushed) == Pushed(k, s) + frames
  }

  predicate Enabled(k: Link, s: State, e: Event)
  {
    match e
    case Decide(a) => R.Enabled(k.m, s.actor, a)
    case Tell(x) => s.todo != [] && O.Enabled(k.limits, s.box, x) && Pushes(k, s, x, [s.todo[0]])
    case Fail(x) =>
      s.own.None? && k.base <= |Pushed(k, s)| && O.Enabled(k.limits, s.box, x) && Pushes(k, s, x, [R.ErrorOut])
    case Use(x) => O.Enabled(k.limits, s.box, x) && Pushes(k, s, x, [])
  }

  function Step(k: Link, s: State, e: Event): (s': State)
    requires Enabled(k, s, e)
  {
    match e
    case Decide(a) => s.(actor := R.Step(k.m, s.actor, a), todo := s.todo + Added(k, s.actor, a))
    case Tell(x) => s.(box := O.Step(k.limits, s.box, x), todo := s.todo[1..])
    case Fail(x) => s.(box := O.Step(k.limits, s.box, x), own := Some(|Pushed(k, s)| - k.base))
    case Use(x) => s.(box := O.Step(k.limits, s.box, x))
  }

  predicate Legal(k: Link, s: State, events: seq<Event>)
    decreases |events|
  {
    events == [] || (Enabled(k, s, events[0]) && Legal(k, Step(k, s, events[0]), events[1..]))
  }

  function Run(k: Link, s: State, events: seq<Event>): (s': State)
    requires Legal(k, s, events)
    decreases |events|
  {
    if events == [] then s else Run(k, Step(k, s, events[0]), events[1..])
  }

  /** A freshly spawned actor, and an outbox in any state of use. */
  predicate Init(k: Link, s: State, loaded: Option<(R.Fp, R.Clip)>)
  {
    && R.Valid(k.m) && (loaded.Some? ==> loaded.value.0 in R.All(k.m)) && s.actor == R.Spawn(k.m, loaded)
    && O.Ordered(s.box) && k.base == |Pushed(k, s)| && s.todo == [] && s.own.None?
  }

  // ---- A run of all is a run of each ----

  function DecisionsOf(events: seq<Event>): (decisions: seq<R.Event>)
    decreases |events|
  {
    if events == [] then [] else (if events[0].Decide? then [events[0].e] else []) + DecisionsOf(events[1..])
  }

  function UsesOf(events: seq<Event>): (uses: seq<O.Event>)
    decreases |events|
  {
    if events == [] then [] else (if events[0].Decide? then [] else [events[0].x]) + UsesOf(events[1..])
  }

  lemma {:induction false} ActorRuns(k: Link, s: State, events: seq<Event>)
    requires Legal(k, s, events)
    ensures R.Legal(k.m, s.actor, DecisionsOf(events))
    ensures R.Run(k.m, s.actor, DecisionsOf(events)) == Run(k, s, events).actor
    decreases |events|
  {
    if events != [] {
      var e, rest := events[0], DecisionsOf(events[1..]);
      ActorRuns(k, Step(k, s, e), events[1..]);
      if e.Decide? {
        assert ([e.e] + rest)[0] == e.e && ([e.e] + rest)[1..] == rest;
      } else {
        assert [] + rest == rest;
      }
    }
  }

  lemma {:induction false} OutboxRuns(k: Link, s: State, events: seq<Event>)
    requires Legal(k, s, events)
    ensures O.Legal(k.limits, s.box, UsesOf(events))
    ensures O.Run(k.limits, s.box, UsesOf(events)) == Run(k, s, events).box
    decreases |events|
  {
    if events != [] {
      var e, rest := events[0], UsesOf(events[1..]);
      OutboxRuns(k, Step(k, s, e), events[1..]);
      if e.Decide? {
        assert [] + rest == rest;
      } else {
        assert ([e.x] + rest)[0] == e.x && ([e.x] + rest)[1..] == rest;
      }
    }
  }

  /** The frames without the one at `i`. */
  function Except(frames: seq<R.Out>, i: nat): (rest: seq<R.Out>)
    requires i < |frames|
  {
    frames[..i] + frames[i + 1..]
  }

  /** Since the join exactly the actor's frames were enqueued or are still to be, with the handler's error among
      them. */
  predicate Woven(frames: seq<R.Out>, todo: seq<R.Out>, own: Option<nat>, wire: seq<R.Out>)
  {
    match own
    case None => frames + todo == wire
    case Some(i) => i < |frames| && frames[i] == R.ErrorOut && Except(frames, i) + todo == wire
  }

  predicate Lined(base: nat, pushed: seq<R.Out>, todo: seq<R.Out>, own: Option<nat>, wire: seq<R.Out>)
  {
    base <= |pushed| && Woven(pushed[base..], todo, own, wire)
  }

  predicate LinkOk(k: Link, s: State)
  {
    Lined(k.base, Pushed(k, s), s.todo, s.own, R.WireOf(s.actor.wires, k.conn))
  }

  predicate Inv(k: Link, s: State)
  {
    R.Valid(k.m) && T.Inv(k.m, s.actor) && O.Ordered(s.box) && LinkOk(k, s)
  }

  lemma {:induction false} JoinGrows(k: Link, s: R.State, fp: R.Fp, conn: R.ConnId, env: R.JoinEnv)
    requires s.wires.Keys == s.used && conn !in s.used
    ensures R.WireOf(s.wires, k.conn) <= R.WireOf(R.OnJoin(s, fp, conn, env).wires, k.conn)
  {
  }

  lemma {:induction false} RouteGrows(k: Link, s: R.State, to: R.Fp, clip: R.Clip, env: R.ClipEnv)
    ensures R.WireOf(s.wires, k.conn) <= R.WireOf(R.Route(s, to, clip, env).wires, k.conn)
  {
  }

  lemma {:induction false} WiresGrow(k: Link, s: R.State, e: R.Event)
    requires R.WiresInv(s) && R.Enabled(k.m, s, e)
    ensures R.WireOf(R.Step(k.m, s, e).wires, k.conn) == R.WireOf(s.wires, k.conn) + Added(k, s, e)
  {
    match e
    case Join(fp, conn, env) => JoinGrows(k, s, fp, conn, env);
    case Send(fp, conn, cipher, env) => RouteGrows(k, s, R.Other(k.m, fp), R.Clip(fp, cipher), env);
    case Disconnect(_, _) =>
  }

  lemma {:induction false} WeaveDecide(frames: seq<R.Out>, todo: seq<R.Out>, own: Option<nat>, wire: seq<R.Out>,
                                       more: seq<R.Out>)
    requires Woven(frames, todo, own, wire)
    ensures Woven(frames, todo + more, own, wire + more)
  {
    if own.None? {
      assert frames + (todo + more) == wire + more;
    } else {
      assert Except(frames, own.value) + (todo + more) == wire + more;
    }
  }

  lemma {:induction false} WeaveTell(frames: seq<R.Out>, todo: seq<R.Out>, own: Option<nat>, wire: seq<R.Out>)
    requires Woven(frames, todo, own, wire) && todo != []
    ensures Woven(frames + [todo[0]], todo[1..], own, wire)
  {
    var frames' := frames + [todo[0]];
    assert [todo[0]] + todo[1..] == todo;
    if own.None? {
      assert frames' + todo[1..] == frames + todo;
    } else {
      var i := own.value;
      assert frames'[..i] == frames[..i] && frames'[i + 1..] == frames[i + 1..] + [todo[0]];
      assert Except(frames', i) + todo[1..] == Except(frames, i) + todo;
    }
  }

  lemma {:induction false} WeaveFail(frames: seq<R.Out>, todo: seq<R.Out>, wire: seq<R.Out>)
    requires Woven(frames, todo, None, wire)
    ensures Woven(frames + [R.ErrorOut], todo, Some(|frames|), wire)
  {
    var frames' := frames + [R.ErrorOut];
    assert frames'[..|frames|] == frames && frames'[|frames| + 1..] == [];
    assert Except(frames', |frames|) == frames;
  }

  lemma {:induction false} DecideKeepsLink(k: Link, s: State, a: R.Event)
    requires LinkOk(k, s) && R.WiresInv(s.actor) && Enabled(k, s, Decide(a))
    ensures LinkOk(k, Step(k, s, Decide(a)))
  {
    WiresGrow(k, s.actor, a);
    WeaveDecide(Pushed(k, s)[k.base..], s.todo, s.own, R.WireOf(s.actor.wires, k.conn), Added(k, s.actor, a));
  }

  lemma {:induction false} LineTold(base: nat, pushed: seq<R.Out>, todo: seq<R.Out>, own: Option<nat>,
                                    wire: seq<R.Out>)
    requires Lined(base, pushed, todo, own, wire) && todo != []
    ensures Lined(base, pushed + [todo[0]], todo[1..], own, wire)
  {
    WeaveTell(pushed[base..], todo, own, wire);
    assert (pushed + [todo[0]])[base..] == pushed[base..] + [todo[0]];
  }

  lemma {:induction false} LineFailed(base: nat, pushed: seq<R.Out>, todo: seq<R.Out>, wire: seq<R.Out>)
    requires Lined(base, pushed, todo, None, wire)
    ensures Lined(base, pushed + [R.ErrorOut], todo, Some(|pushed| - base), wire)
  {
    WeaveFail(pushed[base..], todo, wire);
    assert (pushed + [R.ErrorOut])[base..] == pushed[base..] + [R.ErrorOut];
  }

  lemma {:induction false} ToldKeepsLink(k: Link, s: State, box: O.State)
    requires LinkOk(k, s) && s.todo != [] && Carried(k.carry, box.pushed) == Pushed(k, s) + [s.todo[0]]
    ensures LinkOk(k, s.(box := box, todo := s.todo[1..]))
  {
    LineTold(k.base, Pushed(k, s), s.todo, s.own, R.WireOf(s.actor.wires, k.conn));
  }

  lemma {:induction false} FailedKeepsLink(k: Link, s: State, box: O.State)
    requires LinkOk(k, s) && s.own.None? && Carried(k.carry, box.pushed) == Pushed(k, s) + [R.ErrorOut]
    ensures LinkOk(k, s.(box := box, own := Some(|Pushed(k, s)| - k.base)))
  {
    LineFailed(k.base, Pushed(k, s), s.todo, R.WireOf(s.actor.wires, k.conn));
  }

  lemma {:induction false} UsedKeepsLink(k: Link, s: State, box: O.State)
    requires LinkOk(k, s) && Carried(k.carry, box.pushed) == Pushed(k, s) + []
    ensures LinkOk(k, s.(box := box))
  {
    assert Pushed(k, s) + [] == Pushed(k, s);
  }

  lemma {:induction false} StepKeepsLink(k: Link, s: State, e: Event)
    requires LinkOk(k, s) && R.WiresInv(s.actor) && Enabled(k, s, e)
    ensures LinkOk(k, Step(k, s, e))
  {
    match e
    case Decide(a) => DecideKeepsLink(k, s, a);
    case Tell(x) => ToldKeepsLink(k, s, O.Step(k.limits, s.box, x));
    case Fail(x) => FailedKeepsLink(k, s, O.Step(k.limits, s.box, x));
    case Use(x) => UsedKeepsLink(k, s, O.Step(k.limits, s.box, x));
  }

  lemma {:induction false} StepKeepsOrder(k: Link, s: State, e: Event)
    requires O.Ordered(s.box) && Enabled(k, s, e)
    ensures O.Ordered(Step(k, s, e).box)
  {
    if !e.Decide? {
      O.StepKeepsOrder(k.limits, s.box, e.x);
    }
  }

  lemma {:induction false} StepKeepsInv(k: Link, s: State, e: Event)
    requires Inv(k, s) && Enabled(k, s, e)
    ensures Inv(k, Step(k, s, e))
  {
    StepKeepsLink(k, s, e);
    StepKeepsOrder(k, s, e);
    if e.Decide? {
      T.StepKeepsInv(k.m, s.actor, e.e);
    }
  }

  lemma {:induction false} RunKeepsInv(k: Link, s: State, events: seq<Event>)
    requires Inv(k, s) && Legal(k, s, events)
    ensures Inv(k, Run(k, s, events))
    decreases |events|
  {
    if events != [] {
      StepKeepsInv(k, s, events[0]);
      RunKeepsInv(k, Step(k, s, events[0]), events[1..]);
    }
  }

  // ---- What the client sees ----

  lemma {:induction false} TracePrefix(f: seq<P.FrameEvent>, g: seq<P.FrameEvent>)
    requires P.JoinTrace(f) && g <= f
    ensures P.JoinTrace(g)
  {
    if |g| >= 2 && |f| > 2 {
      assert g[2..] <= f[2..];
      assert forall i :: 0 <= i < |g[2..]| ==> g[2..][i] == f[2..][i];
    } else if |g| == 2 && |f| == 2 {
      assert g == f;
    }
  }

  lemma {:induction false} NothingAfterError(f: seq<P.FrameEvent>, i: nat)
    requires i + 1 < |f| && f[i] == P.Error
    ensures !P.JoinTrace(f)
  {
    if i >= 2 {
      assert f[2..][i - 2] == P.Error;
    }
  }

  lemma {:induction false} ErrorEnds(f: seq<P.FrameEvent>)
    requires P.JoinTrace(f) && P.Error !in f
    ensures P.JoinTrace(f + [P.Error])
  {
    var g := f + [P.Error];
    if |f| >= 2 {
      assert g[2..] == f[2..] + [P.Error];
      assert forall i :: 0 <= i < |f[2..]| ==> f[2..][i] == f[i + 2];
    }
  }

  /** No actor's frame follows the handler's error among the first `n` frames, and no actor's error precedes it. */
  predicate CleanlyEnded(frames: seq<R.Out>, own: Option<nat>, n: nat)
  {
    own.None? || n <= own.value
    || (n == own.value + 1 && own.value <= |frames| && R.ErrorOut !in frames[..own.value])
  }

  lemma {:induction false} EventsPrefix(frames: seq<R.Out>, wire: seq<R.Out>)
    requires frames <= wire
    ensures R.EventsOf(frames) <= R.EventsOf(wire)
    ensures P.Error in R.EventsOf(frames) <==> R.ErrorOut in frames
  {
    var f := R.EventsOf(frames);
    assert forall i :: 0 <= i < |frames| ==> f[i] == R.EventOf(frames[i]);
  }

  /** The first `n` frames with the handler's error at `i` among them. */
  lemma {:induction false} LateTrace(frames: seq<R.Out>, i: nat, n: nat)
    requires i < n <= |frames| && frames[i] == R.ErrorOut && P.JoinTrace(R.EventsOf(frames[..i]))
    ensures P.JoinTrace(R.EventsOf(frames[..n])) <==> n == i + 1 && R.ErrorOut !in frames[..i]
  {
    var before, g := R.EventsOf(frames[..i]), R.EventsOf(frames[..n]);
    assert frames[..i] <= frames[..n];
    EventsPrefix(frames[..i], frames[..n]);
    assert g[i] == P.Error;
    if n > i + 1 {
      NothingAfterError(g, i);
    } else if R.ErrorOut in frames[..i] {
      var j :| 0 <= j < i && before[j] == P.Error;
      assert g[j] == P.Error;
      NothingAfterError(g, j);
    } else {
      ErrorEnds(before);
      assert g == before + [P.Error];
    }
  }

  lemma {:induction false} WovenTrace(frames: seq<R.Out>, todo: seq<R.Out>, own: Option<nat>, wire: seq<R.Out>, n: nat)
    requires Woven(frames, todo, own, wire) && P.JoinTrace(R.EventsOf(wire)) && n <= |frames|
    ensures P.JoinTrace(R.EventsOf(frames[..n])) <==> CleanlyEnded(frames, own, n)
  {
    var m := if own.None? || n <= own.value then n else own.value;
    assert frames[..m] <= wire;
    EventsPrefix(frames[..m], wire);
    TracePrefix(R.EventsOf(wire), R.EventsOf(frames[..m]));
    if m < n {
      LateTrace(frames, m, n);
    }
  }

  /** What the writer has taken out since the join. */
  function Shown(k: Link, s: State): (frames: seq<R.Out>)
  {
    var taken := Carried(k.carry, s.box.received);
    if k.base <= |taken| then taken[k.base..] else []
  }

  lemma {:induction false} ShownIsPrefix(k: Link, s: State)
    requires O.Ordered(s.box) && k.base <= |Pushed(k, s)|
    ensures Shown(k, s) <= Pushed(k, s)[k.base..]
  {
    var received, rest := s.box.received, s.box.pushed[|s.box.received|..];
    assert s.box.pushed == received + rest;
    CarriedAppend(k.carry, received, rest);
  }

  lemma {:induction false} InitLink(k: Link, s: State)
    requires k.base == |Pushed(k, s)| && s.todo == [] && s.own.None? && R.WireOf(s.actor.wires, k.conn) == []
    ensures LinkOk(k, s)
  {
    assert Pushed(k, s)[k.base..] == [];
  }

  lemma {:induction false} InitEstablishesInv(k: Link, s: State, loaded: Option<(R.Fp, R.Clip)>)
    requires Init(k, s, loaded)
    ensures Inv(k, s) && R.WireOf(s.actor.wires, k.conn) == [] && k.conn !in s.actor.used && s.actor.open
  {
    T.SpawnEstablishesInv(k.m, loaded);
    InitLink(k, s);
  }

  /** Over every run: what a client has been sent since its join, up to any point, is what its table accepts exactly
      when the handler's own error, if it was sent, is the first error and the last frame. In particular it always is
      while the handler has enqueued no error. */
  lemma {:induction false} ClientSeesJoinTrace(k: Link, s: State, loaded: Option<(R.Fp, R.Clip)>, events: seq<Event>,
                                               n: nat)
    requires Init(k, s, loaded) && Legal(k, s, events) && n <= |Shown(k, Run(k, s, events))|
    ensures var s' := Run(k, s, events);
            P.JoinTrace(R.EventsOf(Shown(k, s')[..n])) <==> CleanlyEnded(Shown(k, s'), s'.own, n)
  {
    InitEstablishesInv(k, s, loaded);
    RunKeepsInv(k, s, events);
    ClientSeesAt(k, Run(k, s, events), n);
  }

  lemma {:induction false} WireIsTrace(s: R.State, c: R.ConnId)
    requires R.WiresInv(s)
    ensures P.JoinTrace(R.EventsOf(R.WireOf(s.wires, c)))
  {
    if c in s.used {
      T.FrameOrderAt(s, c);
    } else {
      assert R.EventsOf(R.WireOf(s.wires, c)) == [];
    }
  }

  lemma {:induction false} ShownTrace(shown: seq<R.Out>, frames: seq<R.Out>, todo: seq<R.Out>, own: Option<nat>,
                                      wire: seq<R.Out>, n: nat)
    requires shown <= frames && n <= |shown| && Woven(frames, todo, own, wire) && P.JoinTrace(R.EventsOf(wire))
    ensures P.JoinTrace(R.EventsOf(shown[..n])) <==> CleanlyEnded(shown, own, n)
  {
    assert shown[..n] == frames[..n];
    WovenTrace(frames, todo, own, wire, n);
    if own.Some? && own.value < n {
      assert shown[..own.value] == frames[..own.value];
    }
  }

  lemma {:induction false} ClientSeesAt(k: Link, s: State, n: nat)
    requires Inv(k, s) && n <= |Shown(k, s)|
    ensures P.JoinTrace(R.EventsOf(Shown(k, s)[..n])) <==> CleanlyEnded(Shown(k, s), s.own, n)
  {
    ShownIsPrefix(k, s);
    WireIsTrace(s.actor, k.conn);
    ShownTrace(Shown(k, s), Pushed(k, s)[k.base..], s.todo, s.own, R.WireOf(s.actor.wires, k.conn), n);
  }

  // ---- A frame after the error ----

  ghost predicate RunsTo(k: Link, s: State, events: seq<Event>, s': State)
  {
    Legal(k, s, events) && Run(k, s, events) == s'
  }

  lemma {:induction false} Before(k: Link, s: State, e: Event, rest: seq<Event>, s': State)
    requires Enabled(k, s, e) && RunsTo(k, Step(k, s, e), rest, s')
    ensures RunsTo(k, s, [e] + rest, s')
  {
    assert ([e] + rest)[1..] == rest;
  }

  lemma {:induction false} Then(k: Link, s: State, a: seq<Event>, mid: State, b: seq<Event>, end: State)
    requires RunsTo(k, s, a, mid) && RunsTo(k, mid, b, end)
    ensures RunsTo(k, s, a + b, end)
    decreases |a|
  {
    if a == [] {
      assert a + b == b;
    } else {
      assert (a + b)[0] == a[0] && (a + b)[1..] == a[1..] + b;
      Then(k, Step(k, s, a[0]), a[1..], mid, b, end);
    }
  }

  lemma {:induction false} CarriedOne(carry: nat -> R.Out, units: seq<O.Unit>, u: O.Unit)
    ensures Carried(carry, units + [u]) == Carried(carry, units) + if u.Frame? then [carry(u.id)] else []
  {
    assert (units + [u])[..|units + [u]| - 1] == units;
  }

  /** A lone enqueue: the bytes are added, then the frame. */
  lemma {:induction false} Enqueues(k: Link, box: O.State, t: nat, u: O.Unit)
    requires t !in box.senders && u.Frame? && O.Accepts(k.limits, box, u)
    ensures var box1 := O.Step(k.limits, box, O.Add(t, u, false));
            && box1.pushed == box.pushed && O.Enabled(k.limits, box1, O.Attempt(t))
            && O.Step(k.limits, box1, O.Attempt(t)) == O.Push(box, u).(counter := box.counter + O.Size(u))
            && Carried(k.carry, box.pushed + [u]) == Carried(k.carry, box.pushed) + [k.carry(u.id)]
  {
    O.TryAlone(k.limits, box, t, u);
    O.Two(k.limits, box, O.Add(t, u, false), O.Attempt(t));
    CarriedOne(k.carry, box.pushed, u);
  }

  function FailEvents(t: nat, u: O.Unit): (events: seq<Event>)
  {
    [Use(O.Add(t, u, false))] + ([Fail(O.Attempt(t))] + [])
  }

  /** The handler enqueues its error into an outbox with space. */
  lemma {:induction false} FailRuns(k: Link, s: State, t: nat, u: O.Unit)
    requires k.base <= |Pushed(k, s)| && s.own.None? && t !in s.box.senders && u.Frame?
    requires O.Accepts(k.limits, s.box, u) && k.carry(u.id) == R.ErrorOut
    ensures RunsTo(k, s, FailEvents(t, u), s.(box := O.Push(s.box, u).(counter := s.box.counter + O.Size(u)),
                                             own := Some(|Pushed(k, s)| - k.base)))
  {
    Enqueues(k, s.box, t, u);
    var e := Use(O.Add(t, u, false));
    assert Pushed(k, s) + [] == Pushed(k, s);
    var s1 := Step(k, s, e);
    var s2 := Step(k, s1, Fail(O.Attempt(t)));
    Before(k, s1, Fail(O.Attempt(t)), [], s2);
    Before(k, s, e, [Fail(O.Attempt(t))] + [], s2);
  }

  function TellEvents(t: nat, u: O.Unit): (events: seq<Event>)
  {
    [Use(O.Add(t, u, false))] + ([Tell(O.Attempt(t))] + [])
  }

  /** The actor enqueues the next frame it has decided on. */
  lemma {:induction false} TellRuns(k: Link, s: State, t: nat, u: O.Unit)
    requires t !in s.box.senders && u.Frame? && O.Accepts(k.limits, s.box, u) && s.todo != []
    requires s.todo[0] == k.carry(u.id)
    ensures RunsTo(k, s, TellEvents(t, u),
                   s.(box := O.Push(s.box, u).(counter := s.box.counter + O.Size(u)), todo := s.todo[1..]))
  {
    Enqueues(k, s.box, t, u);
    var e := Use(O.Add(t, u, false));
    assert Pushed(k, s) + [] == Pushed(k, s);
    var s1 := Step(k, s, e);
    var s2 := Step(k, s1, Tell(O.Attempt(t)));
    Before(k, s1, Tell(O.Attempt(t)), [], s2);
    Before(k, s, e, [Tell(O.Attempt(t))] + [], s2);
  }

  function TakeEvents(): (events: seq<Event>)
  {
    [Use(O.Receive)] + ([Use(O.Subtract)] + ([Use(O.Receive)] + []))
  }

  /** The writer takes two frames. */
  lemma {:induction false} TakeRuns(k: Link, s: State, u: O.Unit, v: O.Unit)
    requires s.box.alive && s.box.leaving.None? && s.box.queue == [u, v] && u.Frame? && v.Frame?
    ensures Legal(k, s, TakeEvents())
    ensures var s' := Run(k, s, TakeEvents());
            s'.box.received == s.box.received + [u] + [v] && s'.own == s.own
  {
    assert Pushed(k, s) + [] == Pushed(k, s);
    var s1 := Step(k, s, Use(O.Receive));
    var s2 := Step(k, s1, Use(O.Subtract));
    var s3 := Step(k, s2, Use(O.Receive));
    Before(k, s2, Use(O.Receive), [], s3);
    Before(k, s1, Use(O.Subtract), [Use(O.Receive)] + [], s3);
    Before(k, s, Use(O.Receive), [Use(O.Subtract)] + ([Use(O.Receive)] + []), s3);
  }

  const Granted := R.JoinEnv(true, true, true, true)

  function LateEvents(k: Link, t: nat, u: O.Unit, v: O.Unit, fp: R.Fp): (events: seq<Event>)
  {
    FailEvents(t, u) + ([Decide(R.Join(fp, k.conn, Granted))] + (TellEvents(t, v) + TakeEvents()))
  }

  /** An outbox nobody is using, with space for two more frames. */
  predicate Roomy(l: O.Limits, box: O.State, u: O.Unit, v: O.Unit)
  {
    && box.alive && box.queue == [] && box.senders == map[] && box.leaving.None? && u.Frame? && v.Frame?
    && l.maxFrames >= 2 && box.counter + O.Size(u) + O.Size(v) <= l.maxBytes
  }

  lemma {:induction false} JoinIsDecided(k: Link, s: State, fp: R.Fp)
    requires s.todo == [] && R.WireOf(s.actor.wires, k.conn) == []
    requires R.Enabled(k.m, s.actor, R.Join(fp, k.conn, Granted))
    ensures var s' := Step(k, s, Decide(R.Join(fp, k.conn, Granted)));
            s'.box == s.box && s'.own == s.own && s'.todo != [] && s'.todo[0] == R.JoinOk
  {
  }

  lemma {:induction false} TellAndTake(k: Link, s: State, t: nat, u: O.Unit, v: O.Unit)
    requires s.box.alive && s.box.queue == [u] && s.box.senders == map[] && s.box.leaving.None? && u.Frame? && v.Frame?
    requires k.limits.maxFrames >= 2 && s.box.counter + O.Size(v) <= k.limits.maxBytes
    requires s.todo != [] && s.todo[0] == k.carry(v.id)
    ensures Legal(k, s, TellEvents(t, v) + TakeEvents())
    ensures var s' := Run(k, s, TellEvents(t, v) + TakeEvents());
            s'.box.received == s.box.received + [u] + [v] && s'.own == s.own
  {
    assert O.SlotHolders(s.box.senders) == {};
    TellRuns(k, s, t, v);
    var mid := s.(box := O.Push(s.box, v).(counter := s.box.counter + O.Size(v)), todo := s.todo[1..]);
    TakeRuns(k, mid, u, v);
    Then(k, s, TellEvents(t, v), mid, TakeEvents(), Run(k, mid, TakeEvents()));
  }

  lemma {:induction false} LateRuns(k: Link, s: State, t: nat, u: O.Unit, v: O.Unit, fp: R.Fp)
    requires k.base <= |Pushed(k, s)| && s.own.None? && s.todo == [] && Roomy(k.limits, s.box, u, v)
    requires k.carry(u.id) == R.ErrorOut && k.carry(v.id) == R.JoinOk
    requires R.Enabled(k.m, s.actor, R.Join(fp, k.conn, Granted)) && R.WireOf(s.actor.wires, k.conn) == []
    ensures Legal(k, s, LateEvents(k, t, u, v, fp))
    ensures var s' := Run(k, s, LateEvents(k, t, u, v, fp));
            s'.box.received == s.box.received + [u] + [v] && s'.own == Some(|Pushed(k, s)| - k.base)
  {
    assert O.SlotHolders(s.box.senders) == {};
    FailRuns(k, s, t, u);
    var s1 := s.(box := O.Push(s.box, u).(counter := s.box.counter + O.Size(u)),
                 own := Some(|Pushed(k, s)| - k.base));
    var join := Decide(R.Join(fp, k.conn, Granted));
    var s2, rest := Step(k, s1, join), TellEvents(t, v) + TakeEvents();
    JoinIsDecided(k, s1, fp);
    TellAndTake(k, s2, t, u, v);
    Before(k, s1, join, rest, Run(k, s2, rest));
    Then(k, s, FailEvents(t, u), s1, [join] + rest, Run(k, s2, rest));
  }

  lemma {:induction false} TwoShown(k: Link, s: State, s': State, u: O.Unit, v: O.Unit)
    requires O.Ordered(s.box) && s.box.alive && s.box.queue == [] && k.base == |Pushed(k, s)| && u.Frame? && v.Frame?
    requires s'.box.received == s.box.received + [u] + [v]
    ensures |Shown(k, s')| == 2
  {
    assert s.box.received == s.box.pushed;
    CarriedOne(k.carry, s.box.received, u);
    CarriedOne(k.carry, s.box.received + [u], v);
  }

  lemma {:induction false} WholeEvents(frames: seq<R.Out>)
    ensures R.EventsOf(frames[..|frames|]) == R.EventsOf(frames)
  {
    assert frames[..|frames|] == frames;
  }

  lemma {:induction false} NotClean(frames: seq<R.Out>, own: Option<nat>)
    requires own == Some(0) && |frames| == 2
    ensures !CleanlyEnded(frames, own, |frames|)
  {
  }

  lemma {:induction false} TwoIsNoTrace(k: Link, s: State)
    requires Inv(k, s) && s.own == Some(0) && |Shown(k, s)| == 2
    ensures !P.JoinTrace(R.EventsOf(Shown(k, s)))
  {
    var shown := Shown(k, s);
    ClientSeesAt(k, s, |shown|);
    NotClean(shown, s.own);
    WholeEvents(shown);
  }

  /** A run from the start in which the client is sent a frame after an error: the handler's error goes out while the
      actor is still to answer the join. */
  lemma {:induction false} FrameAfterError(k: Link, s: State, loaded: Option<(R.Fp, R.Clip)>, t: nat, u: O.Unit,
                                           v: O.Unit, fp: R.Fp)
    requires Init(k, s, loaded) && Roomy(k.limits, s.box, u, v) && fp in R.All(k.m)
    requires k.carry(u.id) == R.ErrorOut && k.carry(v.id) == R.JoinOk
    ensures Legal(k, s, LateEvents(k, t, u, v, fp))
    ensures !P.JoinTrace(R.EventsOf(Shown(k, Run(k, s, LateEvents(k, t, u, v, fp)))))
  {
    InitEstablishesInv(k, s, loaded);
    LateRuns(k, s, t, u, v, fp);
    var s' := Run(k, s, LateEvents(k, t, u, v, fp));
    RunKeepsInv(k, s, LateEvents(k, t, u, v, fp));
    TwoShown(k, s, s', u, v);
    TwoIsNoTrace(k, s');
  }
}

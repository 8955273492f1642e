/** A room actor and the mailbox it hands its clips to: what the actor's memory holds for an absent member is
    what the mailbox has as the room's newest clip, so an actor that exits and is spawned again starts with what
    its predecessor had. */
module RoomMailbox {
  import opened Prelude
  import R = Room
  import T = RoomTheorems
  import M = Mailbox
  import I = MailboxInvariant
  import W = MailboxSweep

  datatype State = State(actor: R.State, box: M.State)

  /** An actor event, with the snapshot it hands over if it stores a clip; or a step of the mailbox. */
  datatype Event = Act(e: R.Event, p: nat, x: M.Snapshot) | Mail(m: M.Event)

  /** The clip of this event goes to the mailbox. */
  predicate Stores(m: R.Members, s: R.State, e: R.Event)
  {
    e.Send? && R.Current(s, e.fp, e.conn) && R.Other(m, e.fp) !in s.online
  }

  predicate SnapshotOf(x: M.Snapshot, to: R.Fp, clip: R.Clip)
  {
    x.recipient == to && x.origin == clip.origin && x.cipher == clip.cipher
  }

  /** Only this actor hands in clips of its room, and the process does not stop. */
  predicate Enabled(o: M.Options, m: R.Members, room: M.Room, s: State, e: Event)
  {
    match e
    case Act(a, p, x) =>
      && R.Enabled(m, s.actor, a)
      && (Stores(m, s.actor, a) ==>
            M.Enabled(o, s.box, M.Accept(p, room, x)) && SnapshotOf(x, R.Other(m, a.fp), R.Clip(a.fp, a.cipher)))
    case Mail(b) => M.Enabled(o, s.box, b) && !b.Crash? && !b.Open? && (b.Accept? ==> b.room != room)
  }

  ghost function Step(o: M.Options, m: R.Members, room: M.Room, s: State, e: Event): (s': State)
    requires Enabled(o, m, room, s, e)
  {
    match e
    case Act(a, p, x) =>
      State(R.Step(m, s.actor, a), if Stores(m, s.actor, a) then M.Step(o, s.box, M.Accept(p, room, x)) else s.box)
    case Mail(b) => s.(box := M.Step(o, s.box, b))
  }

  ghost predicate Legal(o: M.Options, m: R.Members, room: M.Room, s: State, events: seq<Event>)
    decreases |events|
  {
    events == [] || (Enabled(o, m, room, s, events[0])
      && Legal(o, m, room, Step(o, m, room, s, events[0]), events[1..]))
  }

  ghost function Run(o: M.Options, m: R.Members, room: M.Room, s: State, events: seq<Event>): (s': State)
    requires Legal(o, m, room, s, events)
    decreases |events|
  {
    if events == [] then s else Run(o, m, room, Step(o, m, room, s, events[0]), events[1..])
  }

  // ---- A run of both is a run of each ----

  function ActsOf(events: seq<Event>): (acts: seq<R.Event>)
    decreases |events|
  {
    if events == [] then [] else (if events[0].Act? then [events[0].e] else []) + ActsOf(events[1..])
  }

  /** What a run does to the mailbox: its own steps, and accepting each clip the actor stores. */
  ghost function MailsOf(o: M.Options, m: R.Members, room: M.Room, s: State, events: seq<Event>): (mails: seq<M.Event>)
    requires Legal(o, m, room, s, events)
    decreases |events|
  {
    if events == [] then []
    else
      var e := events[0];
      (if e.Mail? then [e.m] else if Stores(m, s.actor, e.e) then [M.Accept(e.p, room, e.x)] else [])
      + MailsOf(o, m, room, Step(o, m, room, s, e), events[1..])
  }

  lemma {:induction false} ActorRuns(o: M.Options, m: R.Members, room: M.Room, s: State, events: seq<Event>)
    requires Legal(o, m, room, s, events)
    ensures R.Legal(m, s.actor, ActsOf(events)) && R.Run(m, s.actor, ActsOf(events)) == Run(o, m, room, s, events).actor
    decreases |events|
  {
    if events != [] {
      var e, rest := events[0], ActsOf(events[1..]);
      ActorRuns(o, m, room, Step(o, m, room, s, e), events[1..]);
      if e.Act? {
        assert ([e.e] + rest)[0] == e.e && ([e.e] + rest)[1..] == rest;
      } else {
        assert [] + rest == rest;
      }
    }
  }

  lemma {:induction false} MailboxRuns(o: M.Options, m: R.Members, room: M.Room, s: State, events: seq<Event>)
    requires Legal(o, m, room, s, events)
    ensures var mails := MailsOf(o, m, room, s, events);
            M.Legal(o, s.box, mails) && M.Run(o, s.box, mails) == Run(o, m, room, s, events).box
    decreases |events|
  {
    if events != [] {
      var e := events[0];
      var rest := MailsOf(o, m, room, Step(o, m, room, s, e), events[1..]);
      MailboxRuns(o, m, room, Step(o, m, room, s, e), events[1..]);
      if e.Mail? || Stores(m, s.actor, e.e) {
        var b := if e.Mail? then e.m else M.Accept(e.p, room, e.x);
        assert ([b] + rest)[0] == b && ([b] + rest)[1..] == rest;
      } else {
        assert [] + rest == rest;
      }
    }
  }

  /** What the mailbox hands an actor it spawns. */
  function Reload(o: M.Options, box: M.State, room: M.Room, now: int): (loaded: Option<(R.Fp, R.Clip)>)
  {
    var found := M.LoadPending(o, box, room, now);
    if found.None? then None else Some((found.value.recipient, R.Clip(found.value.origin, found.value.cipher)))
  }

  /** The last clip the actor handed over, or was spawned with, is the room's newest in the mailbox. */
  predicate Agrees(room: M.Room, actor: R.State, box: M.State)
  {
    actor.stored.Some? ==>
      room in box.latest && SnapshotOf(box.latest[room], actor.stored.value.0, actor.stored.value.1)
  }

  ghost predicate Inv(o: M.Options, m: R.Members, room: M.Room, s: State)
  {
    Agrees(room, s.actor, s.box) && T.Inv(m, s.actor) && I.Inv(o, s.box)
  }

  lemma {:induction false} StepKeepsAgrees(o: M.Options, m: R.Members, room: M.Room, s: State, e: Event)
    requires Agrees(room, s.actor, s.box) && Enabled(o, m, room, s, e)
    ensures Agrees(room, Step(o, m, room, s, e).actor, Step(o, m, room, s, e).box)
  {
  }

  lemma {:induction false} StepKeepsInv(o: M.Options, m: R.Members, room: M.Room, s: State, e: Event)
    requires R.Valid(m) && Inv(o, m, room, s) && Enabled(o, m, room, s, e)
    ensures Inv(o, m, room, Step(o, m, room, s, e))
  {
    StepKeepsAgrees(o, m, room, s, e);
    match e
    case Act(a, p, x) =>
      T.StepKeepsInv(m, s.actor, a);
      if Stores(m, s.actor, a) {
        I.StepKeepsInv(o, s.box, M.Accept(p, room, x));
      }
    case Mail(b) => I.StepKeepsInv(o, s.box, b);
  }

  lemma {:induction false} RunKeepsInv(o: M.Options, m: R.Members, room: M.Room, s: State, events: seq<Event>)
    requires R.Valid(m) && Inv(o, m, room, s) && Legal(o, m, room, s, events)
    ensures Inv(o, m, room, Run(o, m, room, s, events))
    decreases |events|
  {
    if events != [] {
      StepKeepsInv(o, m, room, s, events[0]);
      RunKeepsInv(o, m, room, Step(o, m, room, s, events[0]), events[1..]);
    }
  }

  /** Spawning from a mailbox whose newest clip of the room is neither being written nor swept. */
  lemma {:induction false} SpawnAgrees(o: M.Options, m: R.Members, room: M.Room, box: M.State, now: int)
    requires R.Valid(m) && I.Inv(o, box) && !M.Held(box.worker, room)
    requires room in box.latest ==> box.latest[room].recipient in R.All(m) && box.latest[room] !in box.swept
    ensures Reload(o, box, room, now).Some? ==> Reload(o, box, room, now).value.0 in R.All(m)
    ensures Inv(o, m, room, State(R.Spawn(m, Reload(o, box, room, now)), box))
  {
    if room in box.latest {
      assert I.LatestAt(room, box.latest[room], box.dirty, box.worker, box.index, box.swept);
    }
    T.SpawnEstablishesInv(m, Reload(o, box, room, now));
  }

  /** An actor that exits after any run and is spawned again finds in the mailbox every clip its predecessor
      still had waiting, as long as no write of the room is in flight and the clip is neither expired nor
      swept. */
  lemma {:induction false} RespawnRemembers(o: M.Options, m: R.Members, room: M.Room, s: State, events: seq<Event>,
                                            now: int)
    requires R.Valid(m) && Inv(o, m, room, s) && Legal(o, m, room, s, events)
    requires var box := Run(o, m, room, s, events).box;
             !M.Held(box.worker, room)
             && (room in box.latest ==> box.latest[room] !in box.swept && now - box.latest[room].ts <= o.ttl)
    ensures var s' := Run(o, m, room, s, events);
            s'.actor.pending == map[]
            || (Reload(o, s'.box, room, now).Some?
                && var (fp, clip) := Reload(o, s'.box, room, now).value; s'.actor.pending == map[fp := clip])
  {
    RunKeepsInv(o, m, room, s, events);
    RemembersAt(o, m, room, Run(o, m, room, s, events), now);
  }

  lemma {:induction false} RemembersAt(o: M.Options, m: R.Members, room: M.Room, s: State, now: int)
    requires Inv(o, m, room, s) && !M.Held(s.box.worker, room)
    requires room in s.box.latest ==>
               s.box.latest[room] !in s.box.swept && now - s.box.latest[room].ts <= o.ttl
    ensures s.actor.pending == map[]
            || (Reload(o, s.box, room, now).Some?
                && s.actor.pending == map[Reload(o, s.box, room, now).value.0 := Reload(o, s.box, room, now).value.1])
  {
    T.SnapshotAt(m, s.actor);
    if s.actor.pending != map[] {
      assert I.LatestAt(room, s.box.latest[room], s.box.dirty, s.box.worker, s.box.index, s.box.swept);
    }
  }

  // ---- The process stops ----

  /** The mailbox of the process that starts next. */
  ghost function Restarted(o: M.Options, box: M.State, now: int, stuck: set<M.Room>): (box': M.State)
  {
    M.Step(o, M.Step(o, box, M.Crash), M.Open(now, stuck))
  }

  /** What a restarted mailbox loads of a room is the unexpired clip in its file, if any. */
  lemma {:induction false} RestartLoads(o: M.Options, box: M.State, room: M.Room, x: M.Snapshot, now: int,
                                        stuck: set<M.Room>)
    ensures M.LoadPending(o, Restarted(o, box, now, stuck), room, now) == Some(x)
            <==> room in box.files && box.files[room] == M.Complete(x) && now - x.ts <= o.ttl
  {
    var down := M.ControlStep(o, box, M.Crash);
    var up := M.ControlStep(o, down, M.Open(now, stuck));
    assert down.files == box.files && down.dirty == map[];
    assert up.index == M.Scan(box.files, now, o.ttl) && up.dirty == map[];
  }

  /** After any run the process stops and starts again. The newest clip of the room is what an actor is spawned with
      exactly when its file was in place and it has not expired; then a clip the actor before still had waiting is that
      clip. */
  lemma {:induction false} RestartRemembersExactly(o: M.Options, m: R.Members, room: M.Room, s: State,
                                                   events: seq<Event>, now: int, stuck: set<M.Room>)
    requires R.Valid(m) && Inv(o, m, room, s) && Legal(o, m, room, s, events)
    requires Run(o, m, room, s, events).actor.pending != map[]
    ensures var s' := Run(o, m, room, s, events);
            && room in s'.box.latest
            && var x, up := s'.box.latest[room], Restarted(o, s'.box, now, stuck);
            && (M.LoadPending(o, up, room, now) == Some(x)
                <==> room in s'.box.files && s'.box.files[room] == M.Complete(x) && now - x.ts <= o.ttl)
            && (M.LoadPending(o, up, room, now) == Some(x) ==>
                  s'.actor.pending == map[x.recipient := R.Clip(x.origin, x.cipher)])
  {
    RunKeepsInv(o, m, room, s, events);
    var s' := Run(o, m, room, s, events);
    T.SnapshotAt(m, s'.actor);
    RestartLoads(o, s'.box, room, s'.box.latest[room], now, stuck);
  }

  ghost predicate CalmThroughout(o: M.Options, m: R.Members, room: M.Room, s: State, events: seq<Event>)
    requires Legal(o, m, room, s, events)
    decreases |events|
  {
    I.Calm(s.box) && (events == [] || CalmThroughout(o, m, room, Step(o, m, room, s, events[0]), events[1..]))
  }

  /** Index and directory of the mailbox agree. */
  ghost predicate BoxOk(o: M.Options, box: M.State)
  {
    I.Inv(o, box) && W.SweepExact(o, box) && W.OnDisk(box)
  }

  lemma {:induction false} BoxStep(o: M.Options, box: M.State, e: M.Event)
    requires BoxOk(o, box) && I.Calm(box) && M.Enabled(o, box, e)
    ensures BoxOk(o, M.Step(o, box, e))
  {
    I.StepKeepsInv(o, box, e);
    W.StepKeepsExact(o, box, e);
    W.StepKeepsDisk(o, box, e);
  }

  lemma {:induction false} CalmRunKeepsBox(o: M.Options, m: R.Members, room: M.Room, s: State, events: seq<Event>)
    requires BoxOk(o, s.box) && Legal(o, m, room, s, events) && CalmThroughout(o, m, room, s, events)
    ensures BoxOk(o, Run(o, m, room, s, events).box)
    decreases |events|
  {
    if events != [] {
      var e := events[0];
      if e.Mail? {
        BoxStep(o, s.box, e.m);
      } else if Stores(m, s.actor, e.e) {
        BoxStep(o, s.box, M.Accept(e.p, room, e.x));
      }
      CalmRunKeepsBox(o, m, room, Step(o, m, room, s, e), events[1..]);
    }
  }

  /** If no write of a room was ever in flight while a sweep worked on it, a relay at rest can stop and start again:
      an actor spawned then starts with the clip its predecessor still had waiting, unless that is expired or
      swept. */
  lemma {:induction false} RestartRemembers(o: M.Options, m: R.Members, room: M.Room, s: State, events: seq<Event>,
                                            now: int, stuck: set<M.Room>)
    requires R.Valid(m) && Inv(o, m, room, s) && BoxOk(o, s.box)
    requires Legal(o, m, room, s, events) && CalmThroughout(o, m, room, s, events)
    requires var box := Run(o, m, room, s, events).box;
             I.Quiet(box)
             && (room in box.latest ==> box.latest[room] !in box.swept && now - box.latest[room].ts <= o.ttl)
    ensures var s' := Run(o, m, room, s, events);
            var loaded := Reload(o, Restarted(o, s'.box, now, stuck), room, now);
            s'.actor.pending == map[]
            || (loaded.Some? && var (fp, clip) := loaded.value; s'.actor.pending == map[fp := clip])
  {
    var s' := Run(o, m, room, s, events);
    CalmRunKeepsBox(o, m, room, s, events);
    I.QuietFacts(o, s'.box);
    if s'.actor.pending != map[] {
      RestartRemembersExactly(o, m, room, s, events, now, stuck);
      assert I.LatestAt(room, s'.box.latest[room], s'.box.dirty, s'.box.worker, s'.box.index, s'.box.swept);
    }
  }
}

/** Sweeping and publishing the same room. If no write of a room is ever in flight while a sweep works
    on that room, only expired clips leave the index, and an indexed room with nothing newer to be written
    has its clip on disk, so a relay at rest serves after a restart what it served before. Without that
    condition a sweep can delete a clip it never judged. */
module MailboxSweep {
  import opened Mailbox
  import opened MailboxInvariant
  import opened MailboxTurns

  /** Sweep targets are still what the index holds; swept clips were expired. */
  ghost predicate SweepExact(o: Options, s: State)
  {
    && (forall t :: t in Targets(s.sweeper) && t.room in s.index ==> s.index[t.room] == t.snapshot)
    && (forall x :: x in s.swept ==> Expired(x.ts, s.swept[x], o.ttl))
    && (s.sweeper.Unindexed? || s.sweeper.Unsized? ==> s.sweeper.target.room !in s.index)
  }

  /** An indexed room with nothing newer under way has exactly that clip on disk. */
  predicate OnDisk(s: State)
  {
    && (forall r :: r in s.index && r !in s.dirty && !Held(s.worker, r) ==>
          r in s.files && s.files[r] == Complete(s.index[r]))
    && (s.worker.Renamed? || s.worker.Accounted? ==>
          s.worker.room in s.files && s.files[s.worker.room] == Complete(s.worker.snapshot))
  }

  lemma {:induction false} IndexKeepsExact(o: Options, s: State)
    requires SweepExact(o, s) && Calm(s) && Enabled(o, s, Index)
    ensures SweepExact(o, Advance(o, s, Index))
  {
  }

  lemma {:induction false} SweepKeepsExact(o: Options, s: State, e: Event)
    requires SweepExact(o, s) && TargetInv(o, s) && Enabled(o, s, e)
    requires !IsProducerEvent(e) && !IsWorkerEvent(e) && !IsControlEvent(e)
    ensures SweepExact(o, SweepStep(s, e))
  {
    var s' := SweepStep(s, e);
    SweeperTargets(s.sweeper, s.index, e);
    if Unindexes(s, e) {
      var t := s.sweeper.todo[0];
      assert t in Targets(s.sweeper) && t in Judged(s.sweeper) && s.index[t.room] == t.snapshot;
      assert TargetOk(t, s.sweeper.now, o.ttl, s.index, s.high, s.log);
    }
  }

  lemma {:induction false} OtherKeepsExact(o: Options, s: State, e: Event)
    requires SweepExact(o, s) && Enabled(o, s, e) && IsWorkerEvent(e) && !Fails(o, s, e) && !e.Index?
    ensures SweepExact(o, Advance(o, s, e))
  {
  }

  lemma {:induction false} GiveBackKeepsExact(o: Options, s: State)
    requires SweepExact(o, s) && Writing(s.worker)
    ensures SweepExact(o, GiveBack(s))
  {
  }

  lemma {:induction false} ProducerKeepsExact(o: Options, s: State, e: Event)
    requires SweepExact(o, s) && Enabled(o, s, e) && IsProducerEvent(e)
    ensures SweepExact(o, ProducerStep(s, e))
  {
  }

  lemma {:induction false} ControlKeepsExact(o: Options, s: State, e: Event)
    requires SweepExact(o, s) && DownInv(s) && Enabled(o, s, e) && IsControlEvent(e)
    ensures SweepExact(o, ControlStep(o, s, e))
  {
  }

  lemma {:induction false} StepKeepsExact(o: Options, s: State, e: Event)
    requires SweepExact(o, s) && Inv(o, s) && Calm(s) && Enabled(o, s, e)
    ensures SweepExact(o, Step(o, s, e))
  {
    if IsProducerEvent(e) {
      ProducerKeepsExact(o, s, e);
    } else if IsWorkerEvent(e) {
      if Fails(o, s, e) {
        GiveBackKeepsExact(o, s);
      } else if e.Index? {
        IndexKeepsExact(o, s);
      } else {
        OtherKeepsExact(o, s, e);
      }
    } else if IsControlEvent(e) {
      ControlKeepsExact(o, s, e);
    } else {
      SweepKeepsExact(o, s, e);
    }
  }

  // ---- Index and files agree ----

  lemma {:induction false} ProducerKeepsDisk(o: Options, s: State, e: Event)
    requires OnDisk(s) && Enabled(o, s, e) && IsProducerEvent(e)
    ensures OnDisk(ProducerStep(s, e))
  {
  }

  lemma {:induction false} GiveBackKeepsDisk(s: State)
    requires OnDisk(s) && Writing(s.worker)
    ensures OnDisk(GiveBack(s))
  {
  }

  lemma {:induction false} RenameKeepsDisk(o: Options, s: State, e: Event)
    requires OnDisk(s) && FileInv(s) && Enabled(o, s, e) && e.Rename? && !Fails(o, s, e)
    ensures OnDisk(Advance(o, s, e))
  {
  }

  lemma {:induction false} IndexKeepsDisk(o: Options, s: State)
    requires OnDisk(s) && Enabled(o, s, Index)
    ensures OnDisk(Advance(o, s, Index))
  {
  }

  lemma {:induction false} TakeKeepsDisk(o: Options, s: State)
    requires OnDisk(s) && Enabled(o, s, Take)
    ensures OnDisk(Advance(o, s, Take))
  {
  }

  lemma {:induction false} MoveKeepsDisk(o: Options, s: State, e: Event)
    requires OnDisk(s) && Enabled(o, s, e) && IsWorkerEvent(e) && !Fails(o, s, e)
    requires !e.Rename? && !e.Index? && !e.Take?
    ensures OnDisk(Advance(o, s, e))
  {
  }

  lemma {:induction false} SweepKeepsDisk(o: Options, s: State, e: Event)
    requires OnDisk(s) && SweepExact(o, s) && Calm(s) && Enabled(o, s, e)
    requires !IsProducerEvent(e) && !IsWorkerEvent(e) && !IsControlEvent(e)
    ensures OnDisk(SweepStep(s, e))
  {
  }

  lemma {:induction false} ControlKeepsDisk(o: Options, s: State, e: Event)
    requires OnDisk(s) && DownInv(s) && Enabled(o, s, e) && IsControlEvent(e)
    ensures OnDisk(ControlStep(o, s, e))
  {
  }

  lemma {:induction false} StepKeepsDisk(o: Options, s: State, e: Event)
    requires OnDisk(s) && SweepExact(o, s) && Inv(o, s) && Calm(s) && Enabled(o, s, e)
    ensures OnDisk(Step(o, s, e))
  {
    if IsProducerEvent(e) {
      ProducerKeepsDisk(o, s, e);
    } else if IsWorkerEvent(e) {
      if Fails(o, s, e) {
        GiveBackKeepsDisk(s);
      } else if e.Rename? {
        RenameKeepsDisk(o, s, e);
      } else if e.Index? {
        IndexKeepsDisk(o, s);
      } else if e.Take? {
        TakeKeepsDisk(o, s);
      } else {
        MoveKeepsDisk(o, s, e);
      }
    } else if IsControlEvent(e) {
      ControlKeepsDisk(o, s, e);
    } else {
      SweepKeepsDisk(o, s, e);
    }
  }

  ghost predicate CalmThroughout(o: Options, s: State, events: seq<Event>)
    requires Legal(o, s, events)
    decreases |events|
  {
    Calm(s) && (events == [] || CalmThroughout(o, Step(o, s, events[0]), events[1..]))
  }

  lemma {:induction false} CalmRunKeeps(o: Options, s: State, events: seq<Event>)
    requires Inv(o, s) && SweepExact(o, s) && OnDisk(s) && Legal(o, s, events) && CalmThroughout(o, s, events)
    ensures var s' := Run(o, s, events); Inv(o, s') && SweepExact(o, s') && OnDisk(s')
    decreases |events|
  {
    if events != [] {
      StepKeepsInv(o, s, events[0]);
      StepKeepsExact(o, s, events[0]);
      StepKeepsDisk(o, s, events[0]);
      CalmRunKeeps(o, Step(o, s, events[0]), events[1..]);
    }
  }

  /** Where a calm mailbox has the newest clip of a room: about to be written, published, or swept when it was
      expired. */
  predicate CalmlyKept(o: Options, s: State, r: Room)
    requires r in s.latest
  {
    var x := s.latest[r];
    || (r in s.dirty && s.dirty[r] == x)
    || (Held(s.worker, r) && s.worker.snapshot == x)
    || (r in s.index && s.index[r] == x && r in s.files && s.files[r] == Complete(x))
    || (x in s.swept && Expired(x.ts, s.swept[x], o.ttl))
  }

  /** At every point of a calm run every room's newest clip is about to be written, or indexed and on disk, or
      was taken out of the index when it was expired; at rest nothing is about to be written. */
  lemma {:induction false} CalmRunPublishes(o: Options, s: State, events: seq<Event>)
    requires Init(s) && Legal(o, s, events) && CalmThroughout(o, s, events)
    ensures var s' := Run(o, s, events);
            && (forall r :: r in s'.latest ==> CalmlyKept(o, s', r))
            && (Quiet(s') ==> s'.dirty == map[] && s'.worker.Idle?)
  {
    InitEstablishesInv(o, s);
    CalmRunKeeps(o, s, events);
    CalmFacts(o, Run(o, s, events));
    QuietFacts(o, Run(o, s, events));
  }

  lemma {:induction false} CalmFacts(o: Options, s: State)
    requires Inv(o, s) && SweepExact(o, s) && OnDisk(s)
    ensures forall r :: r in s.latest ==> CalmlyKept(o, s, r)
  {
    forall r | r in s.latest
      ensures CalmlyKept(o, s, r)
    {
      assert LatestAt(r, s.latest[r], s.dirty, s.worker, s.index, s.swept);
    }
  }

  lemma {:induction false} RestartAtRest(o: Options, s: State, r: Room, now: int, stuck: set<Room>)
    requires OnDisk(s) && s.dirty == map[] && s.worker.Idle? && r in s.index
    ensures LoadPending(o, Step(o, Step(o, s, Crash), Open(now, stuck)), r, now) == LoadPending(o, s, r, now)
  {
  }

  /** A relay at rest that stops and starts again serves every clip it served before. */
  lemma {:induction false} RestartServesSame(o: Options, s: State, events: seq<Event>, r: Room, now: int,
                                             stuck: set<Room>)
    requires Init(s) && Legal(o, s, events) && CalmThroughout(o, s, events)
    requires Quiet(Run(o, s, events)) && r in Run(o, s, events).index
    ensures var s' := Run(o, s, events);
            LoadPending(o, Step(o, Step(o, s', Crash), Open(now, stuck)), r, now) == LoadPending(o, s', r, now)
  {
    InitEstablishesInv(o, s);
    CalmRunKeeps(o, s, events);
    QuietFacts(o, Run(o, s, events));
    RestartAtRest(o, Run(o, s, events), r, now, stuck);
  }

  // ---- The race ----

  function GatherEvents(room: Room, now: int): (events: seq<Event>)
  {
    [StartSweep(now)] + [Collect(room)] + [EndCollect]
  }

  lemma {:induction false} StartSweepRuns(o: Options, s: State, now: int)
    requires s.open && s.sweeper.Resting?
    ensures RunsTo(o, s, [StartSweep(now)], s.(sweeper := Collecting([], now)))
  {
  }

  lemma {:induction false} EndCollectRuns(o: Options, s: State, todo: seq<Target>, now: int)
    requires s.open && s.sweeper == Collecting(todo, now)
    ensures RunsTo(o, s, [EndCollect], s.(sweeper := Sweeping(todo, now)))
  {
  }

  lemma {:induction false} GatherRuns(o: Options, s: State, room: Room, now: int)
    requires s.open && s.sweeper.Resting? && room in s.index && Expired(s.index[room].ts, now, o.ttl)
    ensures RunsTo(o, s, GatherEvents(room, now), s.(sweeper := Sweeping([Target(room, s.index[room])], now)))
  {
    var s1 := s.(sweeper := Collecting([], now));
    StartSweepRuns(o, s, now);
    CollectRuns(o, s1, [], room, now);
    var todo := [Target(room, s.index[room])];
    assert [] + todo == todo;
    var s2 := s1.(sweeper := Collecting(todo, now));
    EndCollectRuns(o, s2, todo, now);
    Chain(o, s, [StartSweep(now)], s1, [Collect(room)], s2, [EndCollect], s2.(sweeper := Sweeping(todo, now)));
  }

  const AllWell := WriteEnv(true, true, true, true)

  /** The worker takes the one signal and has its turn. */
  ghost function ServeEvents(o: Options, s: State, room: Room, env: WriteEnv): (events: seq<Event>)
    ensures forall e :: e in events ==> e.Receive? || IsWorkerEvent(e)
  {
    [Receive] + TurnEvents(o, s.(channel := [], worker := Took(room, [])), env)
  }

  lemma {:induction false} ServeRuns(o: Options, s: State, room: Room, env: WriteEnv)
    requires s.open && s.worker.Idle? && s.channel == [room]
    ensures RunsTo(o, s, ServeEvents(o, s, room, env), Turn(o, s.(channel := [], worker := Took(room, [])), env))
  {
    One(o, s, Receive);
    var s1 := s.(channel := [], worker := Took(room, []));
    assert ControlStep(o, s, Receive) == s1;
    TurnRuns(o, s1, env);
    Then(o, s, [Receive], s1, TurnEvents(o, s1, env), Turn(o, s1, env));
  }

  /** `s` with `room` signalled and dirty, after the worker has published it. */
  function Published(s: State, room: Room): (s': State)
    requires room in s.dirty
  {
    WrittenTo(s.(channel := [], worker := Took(room, [])), 4)
  }

  ghost function RaceEvents(o: Options, s: State, room: Room, now: int, x: Snapshot): (events: seq<Event>)
    requires room in s.index
  {
    var s1 := s.(sweeper := Sweeping([Target(room, s.index[room])], now));
    GatherEvents(room, now)
    + (HandEvents(s1, 0, room, x) + ServeEvents(o, Handed(s1, room, x), room, AllWell) + RemovalEvents(true))
  }

  /** A clip accepted by an idle mailbox with room to spare is indexed and on disk once the worker has
      run undisturbed, whatever the sweeper is in the middle of. */
  lemma {:induction false} HandedIsPublished(o: Options, s: State, room: Room, x: Snapshot)
    requires s.open && Quiet(s) && room !in s.queued && ValidRoom(room)
    requires x.stamp == |s.log| && Prospective(s.sizes, room, x.size) <= o.maxBytes
    ensures RunsTo(o, s, HandEvents(s, 0, room, x) + ServeEvents(o, Handed(s, room, x), room, AllWell),
                   Published(Handed(s, room, x), room))
  {
    HandedRuns(o, s, 0, room, x);
    ServeRuns(o, Handed(s, room, x), room, AllWell);
    Then(o, s, HandEvents(s, 0, room, x), Handed(s, room, x), ServeEvents(o, Handed(s, room, x), room, AllWell),
         Published(Handed(s, room, x), room));
  }

  lemma {:induction false} RemovedAfter(o: Options, s1: State, publish: seq<Event>, s2: State, t: Target, now: int)
    requires RunsTo(o, s1, publish, s2) && s2.open && s2.sweeper == Sweeping([t], now) && t.room in s2.index
    ensures RunsTo(o, s1, publish + RemovalEvents(true),
                   Unpublished(s2, t.room, true, now).(sweeper := Sweeping([], now)))
  {
    RemovalRuns(o, s2, [t], now, true);
    assert [t][1..] == [];
    Then(o, s1, publish, s2, RemovalEvents(true), Unpublished(s2, t.room, true, now).(sweeper := Sweeping([], now)));
  }

  lemma {:induction false} RaceRuns(o: Options, s: State, room: Room, now: int, rest: seq<Event>, end: State)
    requires s.open && s.sweeper.Resting? && room in s.index && Expired(s.index[room].ts, now, o.ttl)
    requires RunsTo(o, s.(sweeper := Sweeping([Target(room, s.index[room])], now)), rest, end)
    ensures RunsTo(o, s, GatherEvents(room, now) + rest, end)
  {
    GatherRuns(o, s, room, now);
    Then(o, s, GatherEvents(room, now), s.(sweeper := Sweeping([Target(room, s.index[room])], now)), rest, end);
  }

  /** The race, from any idle mailbox: a room's clip has expired and a sweep has collected it; a fresh
      clip is accepted and published; the sweep then removes the fresh clip from index and disk,
      although it is not expired. */
  lemma {:induction false} SweepDeletesFreshClip(o: Options, s: State, room: Room, now: int, x: Snapshot)
    requires s.open && Quiet(s) && room !in s.queued && s.sweeper.Resting? && ValidRoom(room)
    requires room in s.index && Expired(s.index[room].ts, now, o.ttl)
    requires x.stamp == |s.log| && !Expired(x.ts, now, o.ttl) && Prospective(s.sizes, room, x.size) <= o.maxBytes
    ensures var events := RaceEvents(o, s, room, now, x);
            && Legal(o, s, events)
            && var s' := Run(o, s, events);
            && Quiet(s') && s'.latest == s.latest[room := x] && room !in s'.dirty && room !in s'.index
            && room !in s'.files
  {
    var s1 := s.(sweeper := Sweeping([Target(room, s.index[room])], now));
    HandedIsPublished(o, s1, room, x);
    var publish := HandEvents(s1, 0, room, x) + ServeEvents(o, Handed(s1, room, x), room, AllWell);
    var s2 := Published(Handed(s1, room, x), room);
    RemovedAfter(o, s1, publish, s2, Target(room, s.index[room]), now);
    RaceRuns(o, s, room, now, publish + RemovalEvents(true),
             Unpublished(s2, room, true, now).(sweeper := Sweeping([], now)));
  }
}

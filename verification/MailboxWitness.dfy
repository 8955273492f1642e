/** Runs in which a sweep deletes the file of a clip it never judged, although the index entry it took was the one
    it had collected: the two ways the conditions of `MailboxRace` can fail at the file alone. */
module MailboxWitness {
  import opened Prelude
  import opened Mailbox
  import opened MailboxInvariant
  import opened MailboxTurns
  import opened MailboxSweep

  /** An idle mailbox in which the room's clip has expired and a fresh clip with room to spare is at hand. */
  ghost predicate Contested(o: Options, s: State, room: Room, now: int, x: Snapshot)
  {
    && s.open && Quiet(s) && room !in s.queued && s.sweeper.Resting? && ValidRoom(room)
    && room in s.index && Expired(s.index[room].ts, now, o.ttl)
    && x.stamp == |s.log| && !Expired(x.ts, now, o.ttl) && Prospective(s.sizes, room, x.size) <= o.maxBytes
  }

  /** After a stop and a start nothing is known of the room. */
  lemma {:induction false} ForgottenAfterRestart(o: Options, s: State, room: Room, later: int, stuck: set<Room>)
    requires room !in s.files
    ensures var up := Step(o, Step(o, s, Crash), Open(later, stuck));
            room !in up.index && room !in up.dirty && room !in up.files
  {
    var down := ControlStep(o, s, Crash);
    assert down.files == s.files && down.dirty == map[];
    assert ControlStep(o, down, Open(later, stuck)).index == Scan(s.files, later, o.ttl);
  }

  // ---- The file of a clip being published ----

  function UpToSync(): (events: seq<Event>)
  {
    [Receive] + [Unqueue] + ([Take] + [CheckQuota] + ([OpenTemp(true)] + [SyncTemp(true)]))
  }

  /** The worker with the room's clip synced in its temporary file. */
  function Synced(s: State, room: Room): (s': State)
    requires room in s.dirty
  {
    s.(channel := [], queued := s.queued - {room}, dirty := s.dirty - {room},
       temps := s.temps[room := Complete(s.dirty[room])], worker := TempSynced(room, [], s.dirty[room]))
  }

  lemma {:induction false} ReceiveRuns(o: Options, s: State, room: Room)
    requires s.open && s.worker.Idle? && s.channel == [room]
    ensures RunsTo(o, s, [Receive], s.(channel := [], worker := Took(room, [])))
  {
    One(o, s, Receive);
  }

  lemma {:induction false} FillRuns(o: Options, s: State, room: Room, x: Snapshot)
    requires s.open && s.worker == Checked(room, [], x)
    ensures RunsTo(o, s, [OpenTemp(true)] + [SyncTemp(true)],
                   s.(temps := s.temps[room := Complete(x)], worker := TempSynced(room, [], x)))
  {
    var s1 := s.(temps := s.temps[room := Partial], worker := TempOpened(room, [], x));
    AdvanceRuns(o, s, OpenTemp(true), s1);
    var s2 := s.(temps := s.temps[room := Complete(x)], worker := TempSynced(room, [], x));
    assert s1.temps[room := Complete(x)] == s.temps[room := Complete(x)];
    AdvanceRuns(o, s1, SyncTemp(true), s2);
    Then(o, s, [OpenTemp(true)], s1, [SyncTemp(true)], s2);
  }

  lemma {:induction false} TakeRuns(o: Options, s: State, room: Room)
    requires s.open && s.worker == Unqueued(room, []) && room in s.dirty
    requires Prospective(s.sizes, room, s.dirty[room].size) <= o.maxBytes
    ensures var x := s.dirty[room];
            RunsTo(o, s, [Take] + [CheckQuota] + ([OpenTemp(true)] + [SyncTemp(true)]),
                   s.(dirty := s.dirty - {room}, temps := s.temps[room := Complete(x)],
                      worker := TempSynced(room, [], x)))
  {
    var x := s.dirty[room];
    var s1 := s.(dirty := s.dirty - {room}, worker := Holding(room, [], x));
    AdvanceRuns(o, s, Take, s1);
    var s2 := s1.(worker := Checked(room, [], x));
    AdvanceRuns(o, s1, CheckQuota, s2);
    FillRuns(o, s2, room, x);
    Chain(o, s, [Take], s1, [CheckQuota], s2, [OpenTemp(true)] + [SyncTemp(true)],
          s2.(temps := s.temps[room := Complete(x)], worker := TempSynced(room, [], x)));
  }

  lemma {:induction false} UpToSyncRuns(o: Options, s: State, room: Room)
    requires s.open && s.worker.Idle? && s.channel == [room] && room in s.dirty
    requires Prospective(s.sizes, room, s.dirty[room].size) <= o.maxBytes
    ensures RunsTo(o, s, UpToSync(), Synced(s, room))
  {
    ReceiveRuns(o, s, room);
    var s1 := s.(channel := [], worker := Took(room, []));
    BeginRuns(o, s1);
    var s2 := s1.(queued := s.queued - {room}, worker := Unqueued(room, []));
    TakeRuns(o, s2, room);
    Chain(o, s, [Receive], s1, [Unqueue], s2, [Take] + [CheckQuota] + ([OpenTemp(true)] + [SyncTemp(true)]),
          Synced(s, room));
  }

  /** From any idle mailbox: the newest clip is in the worker's hands, and loading yields the one before it or none. */
  lemma {:induction false} LoadMissesClipBeingWritten(o: Options, s: State, room: Room, x: Snapshot, now: int)
    requires s.open && Quiet(s) && room !in s.queued && ValidRoom(room) && room !in s.dirty
    requires x.stamp == |s.log| && Prospective(s.sizes, room, x.size) <= o.maxBytes
    ensures var events := HandEvents(s, 0, room, x) + UpToSync();
            && Legal(o, s, events)
            && var s' := Run(o, s, events);
            && s'.latest == s.latest[room := x] && s'.worker == TempSynced(room, [], x)
            && LoadPending(o, s', room, now) == LoadPending(o, s, room, now)
  {
    HandedRuns(o, s, 0, room, x);
    UpToSyncRuns(o, Handed(s, room, x), room);
    Then(o, s, HandEvents(s, 0, room, x), Handed(s, room, x), UpToSync(), Synced(Handed(s, room, x), room));
  }

  /** The removal of the room up to its file, with the publication's rename in the middle. */
  function Entangled(): (events: seq<Event>)
  {
    [SweepIndex] + [Rename(true)] + [SweepSize]
  }

  /** The room is out of index and accounts, the new file is in place. */
  function HalfCrossed(s: State, t: Target, x: Snapshot, now: int): (s': State)
    requires t.room in s.index
  {
    s.(sweeper := Unsized(t, [], now), worker := Renamed(t.room, [], x), index := s.index - {t.room},
       swept := s.swept[s.index[t.room] := now], sizes := s.sizes - {t.room}, high := s.high[t.room := x.stamp],
       files := s.files[t.room := Complete(x)], temps := s.temps - {t.room})
  }

  lemma {:induction false} EntangledRuns(o: Options, s: State, t: Target, x: Snapshot, now: int)
    requires s.open && s.worker == TempSynced(t.room, [], x) && t.room in s.temps && s.temps[t.room] == Complete(x)
    requires s.sweeper == Sweeping([t], now) && t.room in s.index
    ensures RunsTo(o, s, Entangled(), HalfCrossed(s, t, x, now))
  {
    SweepIndexRuns(o, s, [t], now);
    assert [t][1..] == [];
    var s1 := s.(sweeper := Unindexed(t, [], now), index := s.index - {t.room},
                 swept := s.swept[s.index[t.room] := now]);
    var s2 := s1.(worker := Renamed(t.room, [], x), high := s.high[t.room := x.stamp],
                  files := s.files[t.room := Complete(x)], temps := s.temps - {t.room});
    AdvanceRuns(o, s1, Rename(true), s2);
    SweepSizeRuns(o, s2, t, [], now);
    Chain(o, s, [SweepIndex], s1, [Rename(true)], s2, [SweepSize], HalfCrossed(s, t, x, now));
  }

  /** The file goes; the publication ends. */
  function Ending(): (events: seq<Event>)
  {
    [SweepFile(true)] + DirEvents(AllWell)
  }

  function Ended(s: State, t: Target, x: Snapshot, now: int): (s': State)
  {
    s.(sweeper := Sweeping([], now), worker := Idle, index := s.index[t.room := x],
       sizes := s.sizes[t.room := x.size], files := s.files - {t.room})
  }

  lemma {:induction false} EndingRuns(o: Options, s: State, t: Target, x: Snapshot, now: int)
    requires s.open && s.worker == Renamed(t.room, [], x) && s.sweeper == Unsized(t, [], now)
    ensures RunsTo(o, s, Ending(), Ended(s, t, x, now))
  {
    SweepFileRuns(o, s, t, [], now, true);
    var s1 := s.(sweeper := Sweeping([], now), files := s.files - {t.room});
    DirRuns(o, s1, AllWell);
    Then(o, s, [SweepFile(true)], s1, DirEvents(AllWell), DirDone(s1, AllWell));
  }

  /** A fresh clip is accepted and written up to its rename; a sweep that has collected the room unindexes what it
      collected; the rename and the deletion of the file follow in this order. */
  function CrossingEvents(s: State, room: Room, x: Snapshot): (events: seq<Event>)
  {
    HandEvents(s, 0, room, x) + UpToSync() + (Entangled() + Ending())
  }

  function CrossingEnd(s: State, t: Target, x: Snapshot, now: int): (s': State)
    requires t.room in s.index
  {
    Ended(HalfCrossed(Synced(Handed(s, t.room, x), t.room), t, x, now), t, x, now)
  }

  lemma {:induction false} CrossingRuns(o: Options, s: State, t: Target, now: int, x: Snapshot)
    requires s.open && Quiet(s) && t.room !in s.queued && ValidRoom(t.room) && t.room in s.index
    requires x.stamp == |s.log| && Prospective(s.sizes, t.room, x.size) <= o.maxBytes
    requires s.sweeper == Sweeping([t], now)
    ensures RunsTo(o, s, CrossingEvents(s, t.room, x), CrossingEnd(s, t, x, now))
  {
    HandedRuns(o, s, 0, t.room, x);
    var s2 := Handed(s, t.room, x);
    UpToSyncRuns(o, s2, t.room);
    var s3 := Synced(s2, t.room);
    EntangledRuns(o, s3, t, x, now);
    var s4 := HalfCrossed(s3, t, x, now);
    EndingRuns(o, s4, t, x, now);
    Then(o, s3, Entangled(), s4, Ending(), Ended(s4, t, x, now));
    Chain(o, s, HandEvents(s, 0, t.room, x), s2, UpToSync(), s3, Entangled() + Ending(), Ended(s4, t, x, now));
  }

  lemma {:induction false} CrossingFacts(s: State, t: Target, x: Snapshot, now: int)
    requires Quiet(s) && t.room in s.index
    ensures var end := CrossingEnd(s, t, x, now);
            && Quiet(end) && end.swept == s.swept[s.index[t.room] := now] && end.latest == s.latest[t.room := x]
            && end.index == s.index[t.room := x] && t.room !in end.files
  {
    assert (s.index - {t.room})[t.room := x] == s.index[t.room := x];
  }

  /** The race at the file alone, from any idle mailbox: the sweep takes out of the index exactly the expired clip it
      collected, and yet deletes the file of a fresh clip that was renamed into place in between. The fresh clip is
      indexed and at rest, and a restart has forgotten it. */
  lemma {:induction false} SweepDeletesFileBeingPublished(o: Options, s: State, room: Room, now: int, x: Snapshot,
                                                          later: int, stuck: set<Room>)
    requires Contested(o, s, room, now, x)
    ensures var collected := s.(sweeper := Sweeping([Target(room, s.index[room])], now));
            var events := GatherEvents(room, now) + CrossingEvents(collected, room, x);
            && Legal(o, s, events)
            && var s' := Run(o, s, events);
            && Quiet(s') && s'.swept == s.swept[s.index[room] := now] && s'.latest == s.latest[room := x]
            && s'.index == s.index[room := x] && room !in s'.files
            && var up := Step(o, Step(o, s', Crash), Open(later, stuck));
            && room !in up.index && room !in up.dirty && room !in up.files
  {
    var t := Target(room, s.index[room]);
    var collected := s.(sweeper := Sweeping([t], now));
    var end := CrossingEnd(collected, t, x, now);
    CrossingRuns(o, collected, t, now, x);
    CrossingFacts(collected, t, x, now);
    RaceRuns(o, s, room, now, CrossingEvents(collected, room, x), end);
    ForgottenAfterRestart(o, end, room, later, stuck);
  }

  // ---- The file of a clip whose publication failed late ----

  lemma {:induction false} CalmWhileResting(o: Options, s: State, events: seq<Event>)
    requires s.sweeper.Resting? && Legal(o, s, events) && forall e :: e in events ==> !IsSweepEvent(e)
    ensures CalmThroughout(o, s, events)
    decreases |events|
  {
    assert Judged(s.sweeper) == [];
    if events != [] {
      assert events[0] in events;
      CalmWhileResting(o, Step(o, s, events[0]), events[1..]);
    }
  }

  lemma {:induction false} CalmWhileIdle(o: Options, s: State, events: seq<Event>)
    requires s.worker.Idle? && Legal(o, s, events) && forall e :: e in events ==> IsSweepEvent(e)
    ensures CalmThroughout(o, s, events)
    decreases |events|
  {
    if events != [] {
      assert events[0] in events;
      CalmWhileIdle(o, Step(o, s, events[0]), events[1..]);
    }
  }

  lemma {:induction false} CalmThen(o: Options, s: State, a: seq<Event>, mid: State, b: seq<Event>)
    requires RunsTo(o, s, a, mid) && CalmThroughout(o, s, a) && Legal(o, mid, b) && CalmThroughout(o, mid, b)
    requires Legal(o, s, a + b)
    ensures CalmThroughout(o, s, a + b)
    decreases |a|
  {
    if a == [] {
      assert a + b == b;
    } else {
      assert (a + b)[0] == a[0] && (a + b)[1..] == a[1..] + b;
      CalmThen(o, Step(o, s, a[0]), a[1..], mid, b);
    }
  }

  /** Everything goes well but the last sync of the directory. */
  const LateFailure := WriteEnv(true, true, true, false)

  /** A fresh clip is accepted and its publication fails after the rename. */
  ghost function FailedEvents(o: Options, s: State, room: Room, x: Snapshot): (events: seq<Event>)
    ensures forall e :: e in events ==> !IsSweepEvent(e)
  {
    HandEvents(s, 0, room, x) + ServeEvents(o, Handed(s, room, x), room, LateFailure)
  }

  /** The fresh clip is dirty and in the file; the index still has the old one. */
  function Failed(s: State, room: Room, x: Snapshot): (s': State)
  {
    WrittenTo(Handed(s, room, x).(channel := [], worker := Took(room, [])), 3)
  }

  lemma {:induction false} FailedRuns(o: Options, s: State, room: Room, x: Snapshot)
    requires s.open && Quiet(s) && room !in s.queued && ValidRoom(room)
    requires x.stamp == |s.log| && Prospective(s.sizes, room, x.size) <= o.maxBytes
    ensures RunsTo(o, s, FailedEvents(o, s, room, x), Failed(s, room, x))
  {
    HandedRuns(o, s, 0, room, x);
    ServeRuns(o, Handed(s, room, x), room, LateFailure);
    Then(o, s, HandEvents(s, 0, room, x), Handed(s, room, x), ServeEvents(o, Handed(s, room, x), room, LateFailure),
         Failed(s, room, x));
  }

  /** A whole sweep of one room. */
  function WholeSweep(t: Target, now: int): (events: seq<Event>)
    ensures forall e :: e in events ==> IsSweepEvent(e)
  {
    GatherEvents(t.room, now) + SweepEvents([t], {})
  }

  lemma {:induction false} WholeSweepRuns(o: Options, s: State, room: Room, now: int)
    requires s.open && s.sweeper.Resting? && room in s.index && Expired(s.index[room].ts, now, o.ttl)
    ensures RunsTo(o, s, WholeSweep(Target(room, s.index[room]), now), Removed(s, {room}, {}, now))
  {
    var t := Target(room, s.index[room]);
    GatherRuns(o, s, room, now);
    var s1 := s.(sweeper := Sweeping([t], now));
    assert RoomsOf([t]) == {room} by {
      assert t in [t];
    }
    SweepRuns(o, s1, [t], {}, now);
    Then(o, s, GatherEvents(room, now), s1, SweepEvents([t], {}), Removed(s, {room}, {}, now));
  }

  /** The race with no write in flight, from any idle mailbox: a fresh clip's publication fails after its file was
      renamed into place, so the index still holds the expired clip; a sweep then deletes the fresh clip's file. The
      run is calm throughout, the clip is still to be written again, and a stop before that loses it. */
  lemma {:induction false} CalmSweepDeletesFreshFile(o: Options, s: State, room: Room, now: int, x: Snapshot,
                                                     later: int, stuck: set<Room>)
    requires Contested(o, s, room, now, x)
    ensures var events := FailedEvents(o, s, room, x) + WholeSweep(Target(room, s.index[room]), now);
            && Legal(o, s, events) && CalmThroughout(o, s, events)
            && var s' := Run(o, s, events);
            && s'.latest == s.latest[room := x] && room in s'.dirty && s'.dirty[room] == x
            && room !in s'.index && room !in s'.files
            && var up := Step(o, Step(o, s', Crash), Open(later, stuck));
            && room !in up.index && room !in up.dirty && room !in up.files
  {
    var fails, sweep := FailedEvents(o, s, room, x), WholeSweep(Target(room, s.index[room]), now);
    var mid := Failed(s, room, x);
    FailedRuns(o, s, room, x);
    WholeSweepRuns(o, mid, room, now);
    Then(o, s, fails, mid, sweep, Removed(mid, {room}, {}, now));
    CalmWhileResting(o, s, fails);
    CalmWhileIdle(o, mid, sweep);
    CalmThen(o, s, fails, mid, sweep);
    ForgottenAfterRestart(o, Removed(mid, {room}, {}, now), room, later, stuck);
  }

  // ---- From an empty directory ----

  function Started(s: State): (s': State)
  {
    s.(open := true)
  }

  lemma {:induction false} StartRuns(o: Options, s: State, at: int)
    requires Init(s)
    ensures RunsTo(o, s, [Open(at, {})], Started(s))
  {
    One(o, s, Open(at, {}));
    assert Scan(s.files, at, o.ttl) == map[] && ScanFiles(s.files, at, o.ttl, {}) == map[];
    assert SizesOf(map[]) == map[];
  }

  /** The relay starts and publishes one clip. */
  ghost function FirstEvents(o: Options, s: State, at: int, room: Room, x0: Snapshot): (events: seq<Event>)
  {
    [Open(at, {})]
    + (HandEvents(Started(s), 0, room, x0) + ServeEvents(o, Handed(Started(s), room, x0), room, AllWell))
  }

  function FirstPublished(s: State, room: Room, x0: Snapshot): (s': State)
  {
    Published(Handed(Started(s), room, x0), room)
  }

  lemma {:induction false} OneRoom(room: Room, x0: Snapshot, x: Snapshot)
    ensures Prospective(map[], room, x0.size) == x0.size
    ensures Prospective(map[room := x0.size], room, x.size) == x.size
  {
    var none: map<Room, nat> := map[];
    TotalUpdate(none, room, x0.size);
    assert none - {room} == none && none[room := x0.size] == map[room := x0.size];
  }

  lemma {:induction false} FirstRuns(o: Options, s: State, at: int, room: Room, x0: Snapshot)
    requires Init(s) && ValidRoom(room) && x0.stamp == 0 && x0.size <= o.maxBytes
    ensures RunsTo(o, s, FirstEvents(o, s, at, room, x0), FirstPublished(s, room, x0))
  {
    StartRuns(o, s, at);
    OneRoom(room, x0, x0);
    HandedIsPublished(o, Started(s), room, x0);
    Then(o, s, [Open(at, {})], Started(s),
         HandEvents(Started(s), 0, room, x0) + ServeEvents(o, Handed(Started(s), room, x0), room, AllWell),
         FirstPublished(s, room, x0));
  }

  /** The idle mailboxes the races start from are reached from an empty directory: for any room, a first clip that
      has expired by `now` and a second that has not. */
  lemma {:induction false} ContestedIsReached(o: Options, s: State, at: int, room: Room, x0: Snapshot, now: int,
                                              x: Snapshot)
    requires Init(s) && ValidRoom(room) && x0.stamp == 0 && x0.size <= o.maxBytes && Expired(x0.ts, now, o.ttl)
    requires x.stamp == 1 && x.size <= o.maxBytes && !Expired(x.ts, now, o.ttl)
    ensures Legal(o, s, FirstEvents(o, s, at, room, x0))
    ensures Contested(o, Run(o, s, FirstEvents(o, s, at, room, x0)), room, now, x)
  {
    FirstRuns(o, s, at, room, x0);
    OneRoom(room, x0, x);
    var s' := FirstPublished(s, room, x0);
    assert s'.queued == {} && s'.sizes == map[room := x0.size];
  }

  /** So from an empty directory there is a run, calm from the second clip on, after which a stop loses the newest clip
      although it is unexpired and its file had been in place. */
  lemma {:induction false} FreshFileLostFromStart(o: Options, s: State, at: int, room: Room, x0: Snapshot, now: int,
                                                  x: Snapshot, later: int, stuck: set<Room>)
    requires Init(s) && ValidRoom(room) && x0.stamp == 0 && x0.size <= o.maxBytes && Expired(x0.ts, now, o.ttl)
    requires x.stamp == 1 && x.size <= o.maxBytes && !Expired(x.ts, now, o.ttl)
    ensures Legal(o, s, FirstEvents(o, s, at, room, x0))
    ensures var s1 := Run(o, s, FirstEvents(o, s, at, room, x0));
            && room in s1.index
            && var rest := FailedEvents(o, s1, room, x) + WholeSweep(Target(room, s1.index[room]), now);
            var events := FirstEvents(o, s, at, room, x0) + rest;
            && Legal(o, s, events) && Legal(o, s1, rest) && CalmThroughout(o, s1, rest)
            && var s' := Run(o, s, events);
            && room in s'.latest && s'.latest[room] == x
            && var up := Step(o, Step(o, s', Crash), Open(later, stuck));
            && room !in up.index && room !in up.dirty && room !in up.files
  {
    ContestedIsReached(o, s, at, room, x0, now, x);
    var first := FirstEvents(o, s, at, room, x0);
    var s1 := Run(o, s, first);
    CalmSweepDeletesFreshFile(o, s1, room, now, x, later, stuck);
    var rest := FailedEvents(o, s1, room, x) + WholeSweep(Target(room, s1.index[room]), now);
    Then(o, s, first, s1, rest, Run(o, s1, rest));
  }
}

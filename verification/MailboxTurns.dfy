/** Whole calls of the mailbox, as single changes of state: a producer's call, the worker's turn for
    one room, one sweep. Each is proved to be a legal run of the steps it stands for. */
module MailboxTurns {
  import opened Mailbox

  ghost predicate RunsTo(o: Options, s: State, events: seq<Event>, s': State)
  {
    Legal(o, s, events) && Run(o, s, events) == s'
  }

  lemma {:induction false} Then(o: Options, s: State, a: seq<Event>, mid: State, b: seq<Event>, end: State)
    requires RunsTo(o, s, a, mid) && RunsTo(o, mid, b, end)
    ensures RunsTo(o, s, a + b, end)
    decreases |a|
  {
    if a == [] {
      assert a + b == b;
    } else {
      assert (a + b)[0] == a[0] && (a + b)[1..] == a[1..] + b;
      Then(o, Step(o, s, a[0]), a[1..], mid, b, end);
    }
  }

  lemma {:induction false} Chain(o: Options, s0: State, a: seq<Event>, s1: State, b: seq<Event>, s2: State,
                                 c: seq<Event>, s3: State)
    requires RunsTo(o, s0, a, s1) && RunsTo(o, s1, b, s2) && RunsTo(o, s2, c, s3)
    ensures RunsTo(o, s0, a + b + c, s3)
  {
    Then(o, s0, a, s1, b, s2);
    Then(o, s0, a + b, s2, c, s3);
  }

  lemma {:induction false} One(o: Options, s: State, e: Event)
    requires Enabled(o, s, e)
    ensures RunsTo(o, s, [e], Step(o, s, e))
  {
  }

  // ---- A producer's call ----

  /** The clip is the room's newest; the worker is signalled unless a signal is already under way. */
  function Handed(s: State, room: Room, x: Snapshot): (s': State)
  {
    s.(dirty := s.dirty[room := x], latest := s.latest[room := x], log := s.log + [Target(room, x)],
       queued := s.queued + {room}, channel := if room in s.queued then s.channel else s.channel + [room])
  }

  function HandEvents(s: State, p: nat, room: Room, x: Snapshot): (events: seq<Event>)
  {
    if room in s.queued then [Accept(p, room, x)] + [Enqueue(p)]
    else [Accept(p, room, x)] + [Enqueue(p)] + [Signal(p)]
  }

  function Accepted(s: State, p: nat, room: Room, x: Snapshot): (s': State)
  {
    s.(dirty := s.dirty[room := x], latest := s.latest[room := x], log := s.log + [Target(room, x)],
       producers := s.producers[p := Inserted(room)])
  }

  lemma {:induction false} AcceptRuns(o: Options, s: State, p: nat, room: Room, x: Snapshot)
    requires s.open && p !in s.producers && ValidRoom(room) && x.stamp == |s.log|
    ensures RunsTo(o, s, [Accept(p, room, x)], Accepted(s, p, room, x))
  {
  }

  lemma {:induction false} EnqueueAgainRuns(o: Options, s: State, before: map<nat, Producer>, p: nat, room: Room)
    requires s.open && p !in before && s.producers == before[p := Inserted(room)] && room in s.queued
    ensures RunsTo(o, s, [Enqueue(p)], s.(producers := before))
  {
  }

  lemma {:induction false} EnqueueFirstRuns(o: Options, s: State, before: map<nat, Producer>, p: nat, room: Room)
    requires s.open && p !in before && s.producers == before[p := Inserted(room)] && room !in s.queued
    ensures RunsTo(o, s, [Enqueue(p)], s.(queued := s.queued + {room}, producers := before[p := MustSend(room)]))
  {
  }

  lemma {:induction false} SignalRuns(o: Options, s: State, before: map<nat, Producer>, p: nat, room: Room)
    requires s.open && p !in before && s.producers == before[p := MustSend(room)]
    ensures RunsTo(o, s, [Signal(p)], s.(channel := s.channel + [room], producers := before))
  {
  }

  lemma {:induction false} HandedAgainRuns(o: Options, s: State, p: nat, room: Room, x: Snapshot)
    requires s.open && p !in s.producers && ValidRoom(room) && x.stamp == |s.log| && room in s.queued
    ensures RunsTo(o, s, [Accept(p, room, x)] + [Enqueue(p)], Handed(s, room, x))
  {
    var s1 := Accepted(s, p, room, x);
    AcceptRuns(o, s, p, room, x);
    EnqueueAgainRuns(o, s1, s.producers, p, room);
    assert s.queued + {room} == s.queued;
    Then(o, s, [Accept(p, room, x)], s1, [Enqueue(p)], Handed(s, room, x));
  }

  /** An uninterrupted call of `clip_pending` has exactly the effect of `Handed`. */
  lemma {:induction false} HandedRuns(o: Options, s: State, p: nat, room: Room, x: Snapshot)
    requires s.open && p !in s.producers && ValidRoom(room) && x.stamp == |s.log|
    ensures RunsTo(o, s, HandEvents(s, p, room, x), Handed(s, room, x))
  {
    if room in s.queued {
      HandedAgainRuns(o, s, p, room, x);
    } else {
      var s1 := Accepted(s, p, room, x);
      AcceptRuns(o, s, p, room, x);
      EnqueueFirstRuns(o, s1, s.producers, p, room);
      var s2 := s1.(queued := s.queued + {room}, producers := s.producers[p := MustSend(room)]);
      SignalRuns(o, s2, s.producers, p, room);
      Chain(o, s, [Accept(p, room, x)], s1, [Enqueue(p)], s2, [Signal(p)], Handed(s, room, x));
    }
  }

  // ---- The worker's turn for one room ----

  /** How the file operations of one write turn out. */
  datatype WriteEnv = WriteEnv(opens: bool, syncs: bool, renames: bool, syncsDir: bool)

  /** How far a write gets: 0 refused or no temporary file, 1 opened, 2 synced, 3 renamed, 4 durable. */
  function Stage(fits: bool, env: WriteEnv): (k: nat)
    ensures k <= 4
  {
    if !fits || !env.opens then 0
    else if !env.syncs then 1
    else if !env.renames then 2
    else if !env.syncsDir then 3
    else 4
  }

  function FilesAfter(files: map<Room, Content>, room: Room, x: Snapshot, k: nat): (files': map<Room, Content>)
  {
    if k >= 3 then files[room := Complete(x)] else files
  }

  function TempsAfter(temps: map<Room, Content>, room: Room, x: Snapshot, k: nat): (temps': map<Room, Content>)
  {
    if k == 0 then temps else if k == 1 then temps[room := Partial]
    else if k == 2 then temps[room := Complete(x)] else temps - {room}
  }

  /** A write of the room's newest clip that got to stage `k`: published at 4; before that the clip
      stays dirty and the room is retried, and what was done to the directory stays done. */
  function WrittenTo(s: State, k: nat): (s': State)
    requires s.worker.Took? && s.worker.room in s.dirty
    ensures s'.worker == Next(s.worker.rest) && s'.channel == s.channel && s'.open == s.open
  {
    var room, x := s.worker.room, s.dirty[s.worker.room];
    s.(queued := s.queued - {room}, worker := Next(s.worker.rest),
       dirty := if k == 4 then s.dirty - {room} else s.dirty,
       retry := if k == 4 then s.retry else s.retry + {room},
       files := FilesAfter(s.files, room, x, k), temps := TempsAfter(s.temps, room, x, k),
       high := if k >= 3 then s.high[room := x.stamp] else s.high,
       sizes := if k == 4 then s.sizes[room := x.size] else s.sizes,
       index := if k == 4 then s.index[room := x] else s.index)
  }

  /** The worker's turn for one room. */
  ghost function Turn(o: Options, s: State, env: WriteEnv): (s': State)
    requires s.worker.Took?
    ensures s'.worker == Next(s.worker.rest) && s'.channel == s.channel && s'.open == s.open
  {
    var room := s.worker.room;
    if room !in s.dirty then s.(queued := s.queued - {room}, worker := Next(s.worker.rest))
    else WrittenTo(s, Stage(Prospective(s.sizes, room, s.dirty[room].size) <= o.maxBytes, env))
  }

  // The write, stage by stage: what is left to happen from each position of the worker.

  function DirDone(s: State, env: WriteEnv): (s': State)
    requires s.worker.Renamed?
  {
    var w := s.worker;
    if env.syncsDir then
      s.(sizes := s.sizes[w.room := w.snapshot.size], index := s.index[w.room := w.snapshot], worker := Next(w.rest))
    else GiveBack(s)
  }

  function RenameDone(s: State, env: WriteEnv): (s': State)
    requires s.worker.TempSynced?
  {
    var w := s.worker;
    if env.renames then
      DirDone(s.(files := s.files[w.room := Complete(w.snapshot)], temps := s.temps - {w.room},
                 high := s.high[w.room := w.snapshot.stamp], worker := Renamed(w.room, w.rest, w.snapshot)), env)
    else GiveBack(s)
  }

  function SyncDone(s: State, env: WriteEnv): (s': State)
    requires s.worker.TempOpened?
  {
    var w := s.worker;
    if env.syncs then
      RenameDone(s.(temps := s.temps[w.room := Complete(w.snapshot)],
                    worker := TempSynced(w.room, w.rest, w.snapshot)), env)
    else GiveBack(s)
  }

  function OpenDone(s: State, env: WriteEnv): (s': State)
    requires s.worker.Checked?
  {
    var w := s.worker;
    if env.opens then
      SyncDone(s.(temps := s.temps[w.room := Partial], worker := TempOpened(w.room, w.rest, w.snapshot)), env)
    else GiveBack(s)
  }

  ghost function WriteDone(o: Options, s: State, env: WriteEnv): (s': State)
    requires s.worker.Holding?
  {
    var w := s.worker;
    if Prospective(s.sizes, w.room, w.snapshot.size) <= o.maxBytes then
      OpenDone(s.(worker := Checked(w.room, w.rest, w.snapshot)), env)
    else GiveBack(s)
  }

  function DirEvents(env: WriteEnv): (events: seq<Event>)
    ensures forall e :: e in events ==> IsWorkerEvent(e)
  {
    if env.syncsDir then [SyncDir(true)] + [Index] else [SyncDir(false)]
  }

  function RenameEvents(env: WriteEnv): (events: seq<Event>)
    ensures forall e :: e in events ==> IsWorkerEvent(e)
  {
    if env.renames then [Rename(true)] + DirEvents(env) else [Rename(false)]
  }

  function SyncEvents(env: WriteEnv): (events: seq<Event>)
    ensures forall e :: e in events ==> IsWorkerEvent(e)
  {
    if env.syncs then [SyncTemp(true)] + RenameEvents(env) else [SyncTemp(false)]
  }

  function OpenEvents(env: WriteEnv): (events: seq<Event>)
    ensures forall e :: e in events ==> IsWorkerEvent(e)
  {
    if env.opens then [OpenTemp(true)] + SyncEvents(env) else [OpenTemp(false)]
  }

  ghost function WriteEvents(o: Options, s: State, env: WriteEnv): (events: seq<Event>)
    requires s.worker.Holding?
    ensures forall e :: e in events ==> IsWorkerEvent(e)
  {
    if Prospective(s.sizes, s.worker.room, s.worker.snapshot.size) <= o.maxBytes then [CheckQuota] + OpenEvents(env)
    else [CheckQuota]
  }

  lemma {:induction false} FailRuns(o: Options, s: State, e: Event)
    requires Enabled(o, s, e) && IsWorkerEvent(e) && Fails(o, s, e)
    ensures RunsTo(o, s, [e], GiveBack(s))
  {
  }

  lemma {:induction false} AdvanceRuns(o: Options, s: State, e: Event, s': State)
    requires Enabled(o, s, e) && IsWorkerEvent(e) && !Fails(o, s, e) && s' == Advance(o, s, e)
    ensures RunsTo(o, s, [e], s')
  {
  }

  lemma {:induction false} DirRuns(o: Options, s: State, env: WriteEnv)
    requires s.open && s.worker.Renamed?
    ensures RunsTo(o, s, DirEvents(env), DirDone(s, env))
  {
    var w := s.worker;
    if env.syncsDir {
      var s1 := s.(sizes := s.sizes[w.room := w.snapshot.size], worker := Accounted(w.room, w.rest, w.snapshot));
      AdvanceRuns(o, s, SyncDir(true), s1);
      AdvanceRuns(o, s1, Index, DirDone(s, env));
      Then(o, s, [SyncDir(true)], s1, [Index], DirDone(s, env));
    } else {
      FailRuns(o, s, SyncDir(false));
    }
  }

  lemma {:induction false} RenameRuns(o: Options, s: State, env: WriteEnv)
    requires s.open && s.worker.TempSynced? && s.worker.room in s.temps
    requires s.temps[s.worker.room] == Complete(s.worker.snapshot)
    ensures RunsTo(o, s, RenameEvents(env), RenameDone(s, env))
  {
    var w := s.worker;
    if env.renames {
      var s1 := s.(files := s.files[w.room := Complete(w.snapshot)], temps := s.temps - {w.room},
                   high := s.high[w.room := w.snapshot.stamp], worker := Renamed(w.room, w.rest, w.snapshot));
      AdvanceRuns(o, s, Rename(true), s1);
      DirRuns(o, s1, env);
      Then(o, s, [Rename(true)], s1, DirEvents(env), DirDone(s1, env));
    } else {
      FailRuns(o, s, Rename(false));
    }
  }

  lemma {:induction false} SyncRuns(o: Options, s: State, env: WriteEnv)
    requires s.open && s.worker.TempOpened?
    ensures RunsTo(o, s, SyncEvents(env), SyncDone(s, env))
  {
    var w := s.worker;
    if env.syncs {
      var s1 := s.(temps := s.temps[w.room := Complete(w.snapshot)], worker := TempSynced(w.room, w.rest, w.snapshot));
      AdvanceRuns(o, s, SyncTemp(true), s1);
      RenameRuns(o, s1, env);
      Then(o, s, [SyncTemp(true)], s1, RenameEvents(env), RenameDone(s1, env));
    } else {
      FailRuns(o, s, SyncTemp(false));
    }
  }

  lemma {:induction false} OpenRuns(o: Options, s: State, env: WriteEnv)
    requires s.open && s.worker.Checked?
    ensures RunsTo(o, s, OpenEvents(env), OpenDone(s, env))
  {
    var w := s.worker;
    if env.opens {
      var s1 := s.(temps := s.temps[w.room := Partial], worker := TempOpened(w.room, w.rest, w.snapshot));
      AdvanceRuns(o, s, OpenTemp(true), s1);
      SyncRuns(o, s1, env);
      Then(o, s, [OpenTemp(true)], s1, SyncEvents(env), SyncDone(s1, env));
    } else {
      FailRuns(o, s, OpenTemp(false));
    }
  }

  lemma {:induction false} WriteRuns(o: Options, s: State, env: WriteEnv)
    requires s.open && s.worker.Holding?
    ensures RunsTo(o, s, WriteEvents(o, s, env), WriteDone(o, s, env))
  {
    var w := s.worker;
    if Prospective(s.sizes, w.room, w.snapshot.size) <= o.maxBytes {
      var s1 := s.(worker := Checked(w.room, w.rest, w.snapshot));
      AdvanceRuns(o, s, CheckQuota, s1);
      OpenRuns(o, s1, env);
      Then(o, s, [CheckQuota], s1, OpenEvents(env), OpenDone(s1, env));
    } else {
      FailRuns(o, s, CheckQuota);
    }
  }

  /** The snapshot is out of `dirty` while it is being written. */
  function Taken(s: State): (s': State)
    requires s.worker.Took? && s.worker.room in s.dirty
  {
    var w := s.worker;
    s.(queued := s.queued - {w.room}, dirty := s.dirty - {w.room}, worker := Holding(w.room, w.rest, s.dirty[w.room]))
  }

  /** Giving up at stage `k` with the directory as that stage leaves it. */
  lemma {:induction false} GiveBackAt(s: State, b: State, k: nat)
    requires s.worker.Took? && s.worker.room in s.dirty && Held(b.worker, s.worker.room) && k < 4
    requires b == Taken(s).(worker := b.worker, temps := b.temps, files := b.files, high := b.high)
    requires b.worker.rest == s.worker.rest && b.worker.snapshot == s.dirty[s.worker.room]
    requires b.temps == TempsAfter(s.temps, s.worker.room, s.dirty[s.worker.room], k)
    requires b.files == FilesAfter(s.files, s.worker.room, s.dirty[s.worker.room], k)
    requires b.high == if k >= 3 then s.high[s.worker.room := s.dirty[s.worker.room].stamp] else s.high
    ensures GiveBack(b) == WrittenTo(s, k)
  {
  }

  lemma {:induction false} LateTurn(s: State, b: State, env: WriteEnv)
    requires s.worker.Took? && s.worker.room in s.dirty && env.renames
    requires var w, x := s.worker, s.dirty[s.worker.room];
             b == Taken(s).(files := s.files[w.room := Complete(x)], temps := s.temps - {w.room},
                            high := s.high[w.room := x.stamp], worker := Renamed(w.room, w.rest, x))
    ensures DirDone(b, env) == WrittenTo(s, if env.syncsDir then 4 else 3)
  {
  }

  lemma {:induction false} MidTurn(s: State, b: State, env: WriteEnv)
    requires s.worker.Took? && s.worker.room in s.dirty && env.opens
    requires var w, x := s.worker, s.dirty[s.worker.room];
             b == Taken(s).(temps := s.temps[w.room := Partial], worker := TempOpened(w.room, w.rest, x))
    ensures SyncDone(b, env) == WrittenTo(s, Stage(true, env))
  {
    var w, x := s.worker, s.dirty[s.worker.room];
    assert b.temps[w.room := Complete(x)] == s.temps[w.room := Complete(x)];
    assert s.temps[w.room := Complete(x)] - {w.room} == s.temps - {w.room};
    var c := b.(temps := s.temps[w.room := Complete(x)], worker := TempSynced(w.room, w.rest, x));
    if !env.syncs {
      GiveBackAt(s, b, 1);
    } else if !env.renames {
      GiveBackAt(s, c, 2);
    } else {
      LateTurn(s, c.(files := s.files[w.room := Complete(x)], temps := s.temps - {w.room},
                     high := s.high[w.room := x.stamp], worker := Renamed(w.room, w.rest, x)), env);
    }
  }

  lemma {:induction false} WriteIsTurn(o: Options, s: State, env: WriteEnv)
    requires s.worker.Took? && s.worker.room in s.dirty
    ensures WriteDone(o, Taken(s), env) == Turn(o, s, env)
  {
    var b := Taken(s);
    var w := b.worker;
    if Prospective(s.sizes, w.room, w.snapshot.size) > o.maxBytes {
      GiveBackAt(s, b, 0);
    } else if !env.opens {
      GiveBackAt(s, b.(worker := Checked(w.room, w.rest, w.snapshot)), 0);
    } else {
      MidTurn(s, b.(temps := s.temps[w.room := Partial], worker := TempOpened(w.room, w.rest, w.snapshot)), env);
    }
  }

  ghost function TurnEvents(o: Options, s: State, env: WriteEnv): (events: seq<Event>)
    requires s.worker.Took?
    ensures forall e :: e in events ==> IsWorkerEvent(e)
  {
    if s.worker.room in s.dirty then [Unqueue] + ([Take] + WriteEvents(o, Taken(s), env)) else [Unqueue] + [Take]
  }

  lemma {:induction false} TakeNothingRuns(o: Options, s: State, env: WriteEnv)
    requires s.open && s.worker.Unqueued? && s.worker.room !in s.dirty
    ensures RunsTo(o, s, [Take], s.(worker := Next(s.worker.rest)))
  {
  }

  lemma {:induction false} BeginRuns(o: Options, s: State)
    requires s.open && s.worker.Took?
    ensures RunsTo(o, s, [Unqueue],
                   s.(queued := s.queued - {s.worker.room}, worker := Unqueued(s.worker.room, s.worker.rest)))
  {
  }

  lemma {:induction false} WriteTurnRuns(o: Options, s: State, s1: State, env: WriteEnv)
    requires s.open && s.worker.Took? && s.worker.room in s.dirty
    requires s1 == s.(queued := s.queued - {s.worker.room}, worker := Unqueued(s.worker.room, s.worker.rest))
    ensures RunsTo(o, s1, [Take] + WriteEvents(o, Taken(s), env), WriteDone(o, Taken(s), env))
  {
    AdvanceRuns(o, s1, Take, Taken(s));
    WriteRuns(o, Taken(s), env);
    Then(o, s1, [Take], Taken(s), WriteEvents(o, Taken(s), env), WriteDone(o, Taken(s), env));
  }

  /** The worker's uninterrupted turn for one room has exactly the effect of `Turn`. */
  lemma {:induction false} TurnRuns(o: Options, s: State, env: WriteEnv)
    requires s.open && s.worker.Took?
    ensures RunsTo(o, s, TurnEvents(o, s, env), Turn(o, s, env))
  {
    var s1 := s.(queued := s.queued - {s.worker.room}, worker := Unqueued(s.worker.room, s.worker.rest));
    BeginRuns(o, s);
    if s.worker.room in s.dirty {
      WriteTurnRuns(o, s, s1, env);
      WriteIsTurn(o, s, env);
      Then(o, s, [Unqueue], s1, [Take] + WriteEvents(o, Taken(s), env), WriteDone(o, Taken(s), env));
    } else {
      TakeNothingRuns(o, s1, env);
      Then(o, s, [Unqueue], s1, [Take], Turn(o, s, env));
    }
  }

  // ---- One sweep ----

  /** Rooms whose published clip is expired at `now`. */
  function ExpiredRooms(index: map<Room, Snapshot>, now: int, ttl: int): (rooms: set<Room>)
  {
    set r | r in index && Expired(index[r].ts, now, ttl)
  }

  lemma {:induction false} CollectRuns(o: Options, s: State, todo: seq<Target>, room: Room, now: int)
    requires s.open && s.sweeper == Collecting(todo, now) && room in s.index && Expired(s.index[room].ts, now, o.ttl)
    requires forall t :: t in todo ==> t.room != room
    ensures RunsTo(o, s, [Collect(room)], s.(sweeper := Collecting(todo + [Target(room, s.index[room])], now)))
  {
  }

  lemma {:induction false} SweepIndexRuns(o: Options, s: State, todo: seq<Target>, now: int)
    requires s.open && s.sweeper == Sweeping(todo, now) && todo != [] && todo[0].room in s.index
    ensures var r := todo[0].room;
            RunsTo(o, s, [SweepIndex], s.(sweeper := Unindexed(todo[0], todo[1..], now), index := s.index - {r},
                                          swept := s.swept[s.index[r] := now]))
  {
  }

  lemma {:induction false} SweepSizeRuns(o: Options, s: State, t: Target, todo: seq<Target>, now: int)
    requires s.open && s.sweeper == Unindexed(t, todo, now)
    ensures RunsTo(o, s, [SweepSize], s.(sweeper := Unsized(t, todo, now), sizes := s.sizes - {t.room}))
  {
    One(o, s, SweepSize);
  }

  lemma {:induction false} SweepFileRuns(o: Options, s: State, t: Target, todo: seq<Target>, now: int, ok: bool)
    requires s.open && s.sweeper == Unsized(t, todo, now)
    ensures RunsTo(o, s, [SweepFile(ok)],
                   s.(sweeper := Sweeping(todo, now), files := if ok then s.files - {t.room} else s.files))
  {
    One(o, s, SweepFile(ok));
  }

  function RemovalEvents(ok: bool): (events: seq<Event>)
  {
    [SweepIndex] + [SweepSize] + [SweepFile(ok)]
  }

  /** One room of a sweep. */
  function Unpublished(s: State, room: Room, ok: bool, now: int): (s': State)
    requires room in s.index
  {
    s.(index := s.index - {room}, swept := s.swept[s.index[room] := now], sizes := s.sizes - {room},
       files := if ok then s.files - {room} else s.files)
  }

  lemma {:induction false} RemovalRuns(o: Options, s: State, todo: seq<Target>, now: int, ok: bool)
    requires s.open && s.sweeper == Sweeping(todo, now) && todo != [] && todo[0].room in s.index
    ensures RunsTo(o, s, RemovalEvents(ok), Unpublished(s, todo[0].room, ok, now).(sweeper := Sweeping(todo[1..], now)))
  {
    var r := todo[0].room;
    SweepIndexRuns(o, s, todo, now);
    var s1 := s.(sweeper := Unindexed(todo[0], todo[1..], now), index := s.index - {r},
                 swept := s.swept[s.index[r] := now]);
    SweepSizeRuns(o, s1, todo[0], todo[1..], now);
    var s2 := s1.(sweeper := Unsized(todo[0], todo[1..], now), sizes := s.sizes - {r});
    SweepFileRuns(o, s2, todo[0], todo[1..], now, ok);
    Chain(o, s, [SweepIndex], s1, [SweepSize], s2, [SweepFile(ok)],
          Unpublished(s, r, ok, now).(sweeper := Sweeping(todo[1..], now)));
  }

  function ClipsOf(index: map<Room, Snapshot>, rooms: set<Room>): (clips: set<Snapshot>)
  {
    set r | r in rooms && r in index :: index[r]
  }

  /** A sweep over these rooms: they leave the index and the accounts, and their files go unless the
      removal fails. */
  function Removed(s: State, rooms: set<Room>, stuck: set<Room>, now: int): (s': State)
  {
    s.(index := s.index - rooms, sizes := s.sizes - rooms, files := s.files - (rooms - stuck),
       swept := s.swept + map x | x in ClipsOf(s.index, rooms) :: now)
  }

  lemma {:induction false} SweptStep(swept: map<Snapshot, int>, index: map<Room, Snapshot>, r: Room, rest: set<Room>,
                                     now: int)
    requires r in index && r !in rest
    ensures swept[index[r] := now] + (map x | x in ClipsOf(index - {r}, rest) :: now)
            == swept + map x | x in ClipsOf(index, rest + {r}) :: now
  {
  }

  lemma {:induction false} FilesStep(files: map<Room, Content>, r: Room, rest: set<Room>, stuck: set<Room>)
    ensures (if r !in stuck then files - {r} else files) - (rest - stuck) == files - (rest + {r} - stuck)
  {
  }

  /** Rooms may be removed one at a time, in any order. */
  lemma {:induction false} RemovedStep(s: State, r: Room, rest: set<Room>, stuck: set<Room>, now: int)
    requires r in s.index && r !in rest
    ensures Removed(Unpublished(s, r, r !in stuck, now), rest, stuck, now) == Removed(s, rest + {r}, stuck, now)
  {
    SweptStep(s.swept, s.index, r, rest, now);
    FilesStep(s.files, r, rest, stuck);
    assert s.index - {r} - rest == s.index - (rest + {r});
    assert s.sizes - {r} - rest == s.sizes - (rest + {r});
  }

  lemma {:induction false} RemovedNone(s: State, stuck: set<Room>, now: int)
    ensures Removed(s, {}, stuck, now) == s
  {
  }

  function RoomsOf(todo: seq<Target>): (rooms: set<Room>)
  {
    set t | t in todo :: t.room
  }

  function SweepEvents(todo: seq<Target>, stuck: set<Room>): (events: seq<Event>)
    ensures forall e :: e in events ==> IsSweepEvent(e) && !e.StartSweep?
    decreases |todo|
  {
    if todo == [] then [SweepIndex] else RemovalEvents(todo[0].room !in stuck) + SweepEvents(todo[1..], stuck)
  }

  /** The removal half of an uninterrupted sweep has exactly the effect of `Removed`. */
  lemma {:induction false} SweepRuns(o: Options, s: State, todo: seq<Target>, stuck: set<Room>, now: int)
    requires s.open && s.sweeper == Sweeping(todo, now) && Distinct(todo) && RoomsOf(todo) <= s.index.Keys
    ensures RunsTo(o, s, SweepEvents(todo, stuck), Removed(s, RoomsOf(todo), stuck, now).(sweeper := Resting))
    decreases |todo|
  {
    if todo == [] {
      One(o, s, SweepIndex);
      RemovedNone(s, stuck, now);
      assert RoomsOf(todo) == {};
    } else {
      var r, rest := todo[0].room, RoomsOf(todo[1..]);
      assert todo[0] in todo && r in RoomsOf(todo);
      assert RoomsOf(todo) == rest + {r} && r !in rest;
      var s1 := Unpublished(s, r, r !in stuck, now).(sweeper := Sweeping(todo[1..], now));
      RemovalRuns(o, s, todo, now, r !in stuck);
      SweepRuns(o, s1, todo[1..], stuck, now);
      RemovedStep(s, r, rest, stuck, now);
      Then(o, s, RemovalEvents(r !in stuck), s1, SweepEvents(todo[1..], stuck),
           Removed(s1, rest, stuck, now).(sweeper := Resting));
    }
  }
}

/** The relay's persistent mailbox: room actors hand in clips, one worker publishes the latest clip of
    each room to a file, a sweeper deletes expired ones. Every access to a shared map, the channel or
    the disk is one step; producers, worker and sweeper interleave freely. */
module Mailbox {
  import opened Prelude
  import Crypto

  type Room = Bytes

  /** `stamp` numbers the accepted clips in order; `size` is the length of the encoded snapshot. */
  datatype Snapshot = Snapshot(recipient: Bytes, origin: Bytes, cipher: string, ts: int, size: nat, stamp: nat)

  datatype Content = Partial | Complete(snapshot: Snapshot)

  /** A call of `clip_pending` between two of its shared accesses. */
  datatype Producer = Inserted(room: Room) | MustSend(room: Room)

  /** Where the worker is; `rest` are retried rooms it has still to visit. */
  datatype Worker =
    | Idle
    | Took(room: Room, rest: seq<Room>)
    | Unqueued(room: Room, rest: seq<Room>)
    | Holding(room: Room, rest: seq<Room>, snapshot: Snapshot)
    | Checked(room: Room, rest: seq<Room>, snapshot: Snapshot)
    | TempOpened(room: Room, rest: seq<Room>, snapshot: Snapshot)
    | TempSynced(room: Room, rest: seq<Room>, snapshot: Snapshot)
    | Renamed(room: Room, rest: seq<Room>, snapshot: Snapshot)
    | Accounted(room: Room, rest: seq<Room>, snapshot: Snapshot)

  datatype Target = Target(room: Room, snapshot: Snapshot)

  predicate Distinct(todo: seq<Target>)
  {
    forall i, j :: 0 <= i < j < |todo| ==> todo[i].room != todo[j].room
  }

  datatype Sweeper =
    | Resting
    | Collecting(todo: seq<Target>, now: int)
    | Sweeping(todo: seq<Target>, now: int)
    | Unindexed(target: Target, todo: seq<Target>, now: int)
    | Unsized(target: Target, todo: seq<Target>, now: int)

  datatype Options = Options(maxBytes: nat, ttl: int)

  /** `log` lists the accepted clips in order, `latest` is the newest clip each room was given since
      start-up (or found at start-up), `high` the newest stamp ever renamed into place, `swept` what
      sweeps removed and when, `scanOk` whether the start-up scan was within quota. */
  datatype State = State(
    index: map<Room, Snapshot>, dirty: map<Room, Snapshot>, queued: set<Room>, sizes: map<Room, nat>,
    channel: seq<Room>, retry: set<Room>, worker: Worker, producers: map<nat, Producer>, sweeper: Sweeper,
    files: map<Room, Content>, temps: map<Room, Content>, open: bool,
    log: seq<Target>, latest: map<Room, Snapshot>, high: map<Room, nat>, swept: map<Snapshot, int>, scanOk: bool)

  datatype Event =
    | Accept(p: nat, room: Room, snapshot: Snapshot)
    | Enqueue(p: nat)
    | Signal(p: nat)
    | Receive
    | RetryTick(order: seq<Room>)
    | Unqueue
    | Take
    | CheckQuota
    | OpenTemp(ok: bool)
    | SyncTemp(ok: bool)
    | Rename(ok: bool)
    | SyncDir(ok: bool)
    | Index
    | StartSweep(now: int)
    | Collect(room: Room)
    | EndCollect
    | SweepIndex
    | SweepSize
    | SweepFile(ok: bool)
    | Crash
    | Open(now: int, stuck: set<Room>)

  predicate Expired(ts: int, now: int, ttl: int)
  {
    now - ts > ttl
  }

  predicate ValidRoom(room: Room)
  {
    Crypto.IsHex(room, 32)
  }

  predicate Held(w: Worker, r: Room)
  {
    !w.Idle? && !w.Took? && !w.Unqueued? && w.room == r
  }

  /** Rooms whose dirty entry the worker is still going to look at. */
  predicate WillCheck(w: Worker, r: Room)
  {
    !w.Idle? && (r in w.rest || ((w.Took? || w.Unqueued?) && w.room == r))
  }

  function Next(rest: seq<Room>): (w: Worker)
  {
    if rest == [] then Idle else Took(rest[0], rest[1..])
  }

  /** The entry that is there wins. */
  function OrInsert(dirty: map<Room, Snapshot>, r: Room, x: Snapshot): (dirty': map<Room, Snapshot>)
  {
    if r in dirty then dirty else dirty[r := x]
  }

  /** The write failed: keep the snapshot unless a newer one arrived, and retry later. */
  function GiveBack(s: State): (s': State)
    requires !s.worker.Idle? && !s.worker.Took? && !s.worker.Unqueued?
    ensures s'.files == s.files && s'.temps == s.temps && s'.index == s.index && s'.sizes == s.sizes
    ensures s'.sweeper == s.sweeper && s'.open == s.open && s'.high == s.high && s'.swept == s.swept
    ensures s'.scanOk == s.scanOk && s'.latest == s.latest && s'.log == s.log && s'.worker == Next(s.worker.rest)
  {
    var w := s.worker;
    s.(dirty := OrInsert(s.dirty, w.room, w.snapshot),
       retry := s.retry + {w.room},
       worker := Next(w.rest))
  }

  /** What a restarted relay reads back: the complete, unexpired files. */
  function Scan(files: map<Room, Content>, now: int, ttl: int): (index: map<Room, Snapshot>)
  {
    map r | r in files && files[r].Complete? && !Expired(files[r].snapshot.ts, now, ttl) :: files[r].snapshot
  }

  /** The directory after start-up: expired files are deleted, except those that cannot be. */
  function ScanFiles(files: map<Room, Content>, now: int, ttl: int, stuck: set<Room>): (kept: map<Room, Content>)
  {
    map r | r in files && (r in stuck || (files[r].Complete? ==> !Expired(files[r].snapshot.ts, now, ttl))) :: files[r]
  }

  function SizesOf(index: map<Room, Snapshot>): (sizes: map<Room, nat>)
  {
    map r | r in index :: index[r].size
  }

  predicate Enabled(o: Options, s: State, e: Event)
  {
    if e.Open? then !s.open
    else if e.Crash? then true
    else s.open && match e
      case Accept(p, room, snapshot) => p !in s.producers && ValidRoom(room) && snapshot.stamp == |s.log|
      case Enqueue(p) => p in s.producers && s.producers[p].Inserted?
      case Signal(p) => p in s.producers && s.producers[p].MustSend?
      case Receive => s.worker.Idle? && s.channel != []
      case RetryTick(order) => s.worker.Idle? && s.retry != {} && s.retry == set r | r in order
      case Unqueue => s.worker.Took?
      case Take => s.worker.Unqueued?
      case CheckQuota => s.worker.Holding?
      case OpenTemp(_) => s.worker.Checked?
      case SyncTemp(_) => s.worker.TempOpened?
      case Rename(_) => s.worker.TempSynced?
      case SyncDir(_) => s.worker.Renamed?
      case Index => s.worker.Accounted?
      case StartSweep(_) => s.sweeper.Resting?
      case Collect(room) =>
        s.sweeper.Collecting? && room in s.index && Expired(s.index[room].ts, s.sweeper.now, o.ttl)
        && forall t :: t in s.sweeper.todo ==> t.room != room
      case EndCollect => s.sweeper.Collecting?
      case SweepIndex => s.sweeper.Sweeping?
      case SweepSize => s.sweeper.Unindexed?
      case SweepFile(_) => s.sweeper.Unsized?
  }

  predicate IsWorkerEvent(e: Event)
  {
    e.Unqueue? || e.Take? || e.CheckQuota? || e.OpenTemp? || e.SyncTemp? || e.Rename? || e.SyncDir? || e.Index?
  }

  predicate IsProducerEvent(e: Event)
  {
    e.Accept? || e.Enqueue? || e.Signal?
  }

  predicate IsControlEvent(e: Event)
  {
    e.Receive? || e.RetryTick? || e.Crash? || e.Open?
  }

  predicate IsSweepEvent(e: Event)
  {
    !IsProducerEvent(e) && !IsWorkerEvent(e) && !IsControlEvent(e)
  }

  ghost function Prospective(sizes: map<Room, nat>, r: Room, size: nat): (bytes: int)
  {
    Total(sizes) - (if r in sizes then sizes[r] else 0) + size
  }

  /** The file operation of this step goes wrong, or the quota refuses it. */
  ghost predicate Fails(o: Options, s: State, e: Event)
    requires Enabled(o, s, e) && IsWorkerEvent(e)
  {
    match e
    case CheckQuota => Prospective(s.sizes, s.worker.room, s.worker.snapshot.size) > o.maxBytes
    case OpenTemp(ok) => !ok
    case SyncTemp(ok) => !ok
    case Rename(ok) => !ok || s.worker.room !in s.temps
    case SyncDir(ok) => !ok
    case _ => false
  }

  /** The worker is done with this room. */
  predicate Finishes(s: State, e: Event)
    requires !s.worker.Idle?
  {
    e.Index? || (e.Take? && s.worker.room !in s.dirty)
  }

  predicate WorkerReady(w: Worker, e: Event)
  {
    match e
    case Unqueue => w.Took?
    case Take => w.Unqueued?
    case CheckQuota => w.Holding?
    case OpenTemp(_) => w.Checked?
    case SyncTemp(_) => w.TempOpened?
    case Rename(_) => w.TempSynced?
    case SyncDir(_) => w.Renamed?
    case Index => w.Accounted?
    case _ => false
  }

  /** The worker's own progress through one room. */
  function WorkerNext(w: Worker, dirty: map<Room, Snapshot>, e: Event): (w': Worker)
    requires WorkerReady(w, e)
  {
    match e
    case Unqueue => Unqueued(w.room, w.rest)
    case Take => if w.room in dirty then Holding(w.room, w.rest, dirty[w.room]) else Next(w.rest)
    case CheckQuota => Checked(w.room, w.rest, w.snapshot)
    case OpenTemp(_) => TempOpened(w.room, w.rest, w.snapshot)
    case SyncTemp(_) => TempSynced(w.room, w.rest, w.snapshot)
    case Rename(_) => Renamed(w.room, w.rest, w.snapshot)
    case SyncDir(_) => Accounted(w.room, w.rest, w.snapshot)
    case Index => Next(w.rest)
  }

  ghost function Advance(o: Options, s: State, e: Event): (s': State)
    requires Enabled(o, s, e) && IsWorkerEvent(e) && !Fails(o, s, e)
    ensures s'.channel == s.channel && s'.retry == s.retry && s'.producers == s.producers && s'.sweeper == s.sweeper
    ensures s'.open == s.open && s'.log == s.log && s'.latest == s.latest && s'.swept == s.swept
            && s'.scanOk == s.scanOk
    ensures s'.queued == if e.Unqueue? then s.queued - {s.worker.room} else s.queued
    ensures s'.dirty == if e.Take? then s.dirty - {s.worker.room} else s.dirty
    ensures s'.index == if e.Index? then s.index[s.worker.room := s.worker.snapshot] else s.index
    ensures s'.sizes == if e.SyncDir? then s.sizes[s.worker.room := s.worker.snapshot.size] else s.sizes
    ensures s'.high == if e.Rename? then s.high[s.worker.room := s.worker.snapshot.stamp] else s.high
    ensures s'.files == if e.Rename? then s.files[s.worker.room := s.temps[s.worker.room]] else s.files
    ensures !e.Rename? && !e.OpenTemp? && !e.SyncTemp? ==> s'.temps == s.temps
    ensures WorkerReady(s.worker, e) && s'.worker == WorkerNext(s.worker, s.dirty, e)
  {
    var w := s.worker;
    var s1 := s.(worker := WorkerNext(w, s.dirty, e));
    match e
    case Unqueue => s1.(queued := s.queued - {w.room})
    case Take => s1.(dirty := s.dirty - {w.room})
    case CheckQuota => s1
    case OpenTemp(_) => s1.(temps := s.temps[w.room := Partial])
    case SyncTemp(_) => s1.(temps := s.temps[w.room := Complete(w.snapshot)])
    case Rename(_) =>
      s1.(files := s.files[w.room := s.temps[w.room]], temps := s.temps - {w.room},
          high := s.high[w.room := w.snapshot.stamp])
    case SyncDir(_) => s1.(sizes := s.sizes[w.room := w.snapshot.size])
    case Index => s1.(index := s.index[w.room := w.snapshot])
  }

  ghost function WorkerStep(o: Options, s: State, e: Event): (s': State)
    requires Enabled(o, s, e) && IsWorkerEvent(e)
  {
    if Fails(o, s, e) then GiveBack(s) else Advance(o, s, e)
  }

  /** This step takes a room out of the index. */
  predicate Unindexes(s: State, e: Event)
  {
    e.SweepIndex? && s.sweeper.Sweeping? && s.sweeper.todo != [] && s.sweeper.todo[0].room in s.index
  }

  /** The sweeper's own progress: collect expired rooms, then per room index, size, file. */
  function SweeperNext(sw: Sweeper, index: map<Room, Snapshot>, e: Event): (sw': Sweeper)
    requires (sw.Resting? && e.StartSweep?)
             || (sw.Collecting? && (e.EndCollect? || (e.Collect? && e.room in index)))
             || (sw.Sweeping? && e.SweepIndex?) || (sw.Unindexed? && e.SweepSize?)
             || (sw.Unsized? && e.SweepFile?)
  {
    match e
    case StartSweep(now) => Collecting([], now)
    case Collect(room) => Collecting(sw.todo + [Target(room, index[room])], sw.now)
    case EndCollect => Sweeping(sw.todo, sw.now)
    case SweepIndex =>
      if sw.todo == [] then Resting
      else if sw.todo[0].room !in index then Sweeping(sw.todo[1..], sw.now)
      else Unindexed(sw.todo[0], sw.todo[1..], sw.now)
    case SweepSize => Unsized(sw.target, sw.todo, sw.now)
    case SweepFile(_) => Sweeping(sw.todo, sw.now)
  }

  function SweepStep(s: State, e: Event): (s': State)
    requires (s.sweeper.Resting? && e.StartSweep?)
             || (s.sweeper.Collecting? && (e.EndCollect? || (e.Collect? && e.room in s.index)))
             || (s.sweeper.Sweeping? && e.SweepIndex?) || (s.sweeper.Unindexed? && e.SweepSize?)
             || (s.sweeper.Unsized? && e.SweepFile?)
    ensures s'.dirty == s.dirty && s'.queued == s.queued && s'.channel == s.channel && s'.retry == s.retry
    ensures s'.worker == s.worker && s'.producers == s.producers && s'.open == s.open
    ensures s'.temps == s.temps && s'.log == s.log && s'.latest == s.latest && s'.high == s.high
            && s'.scanOk == s.scanOk
    ensures s'.files == if e.SweepFile? && e.ok then s.files - {s.sweeper.target.room} else s.files
    ensures s'.sizes == if e.SweepSize? then s.sizes - {s.sweeper.target.room} else s.sizes
    ensures s'.sweeper == SweeperNext(s.sweeper, s.index, e)
    ensures !Unindexes(s, e) ==> s'.index == s.index && s'.swept == s.swept
    ensures Unindexes(s, e) ==>
              var r := s.sweeper.todo[0].room;
              s'.index == s.index - {r} && s'.swept == s.swept[s.index[r] := s.sweeper.now]
  {
    var sw := s.sweeper;
    var s1 := s.(sweeper := SweeperNext(sw, s.index, e));
    match e
    case SweepIndex =>
      if sw.todo == [] || sw.todo[0].room !in s.index then s1
      else s1.(index := s.index - {sw.todo[0].room}, swept := s.swept[s.index[sw.todo[0].room] := sw.now])
    case SweepSize => s1.(sizes := s.sizes - {sw.target.room})
    case SweepFile(ok) => if ok then s1.(files := s.files - {sw.target.room}) else s1
    case _ => s1
  }

  function ProducerStep(s: State, e: Event): (s': State)
    requires e.Accept? || (e.Enqueue? && e.p in s.producers) || (e.Signal? && e.p in s.producers)
    ensures s'.files == s.files && s'.temps == s.temps && s'.index == s.index && s'.sizes == s.sizes
    ensures s'.retry == s.retry && s'.worker == s.worker && s'.sweeper == s.sweeper && s'.open == s.open
    ensures s'.high == s.high && s'.swept == s.swept && s'.scanOk == s.scanOk
    ensures !e.Accept? ==> s'.dirty == s.dirty && s'.latest == s.latest && s'.log == s.log
    ensures e.Accept? ==> && s'.dirty == s.dirty[e.room := e.snapshot] && s'.latest == s.latest[e.room := e.snapshot]
                          && s'.log == s.log + [Target(e.room, e.snapshot)]
  {
    match e
    case Accept(p, room, snapshot) =>
      s.(dirty := s.dirty[room := snapshot], latest := s.latest[room := snapshot],
         log := s.log + [Target(room, snapshot)],
         producers := s.producers[p := Inserted(room)])
    case Enqueue(p) =>
      var room := s.producers[p].room;
      if room in s.queued then s.(producers := s.producers - {p})
      else s.(queued := s.queued + {room}, producers := s.producers[p := MustSend(room)])
    case Signal(p) => s.(channel := s.channel + [s.producers[p].room], producers := s.producers - {p})
  }

  /** The worker picks up work; the process stops or starts. */
  ghost function ControlStep(o: Options, s: State, e: Event): (s': State)
    requires Enabled(o, s, e) && IsControlEvent(e)
    ensures s'.open <==> !e.Crash?
    ensures s'.temps == s.temps && s'.log == s.log && s'.high == s.high && s'.swept == s.swept
    ensures !e.Crash? && !e.Open? ==>
              && s'.index == s.index && s'.dirty == s.dirty && s'.queued == s.queued && s'.sizes == s.sizes
              && s'.producers == s.producers && s'.sweeper == s.sweeper && s'.files == s.files
              && s'.latest == s.latest && s'.scanOk == s.scanOk && (s'.worker.Idle? || s'.worker.Took?)
  {
    match e
    case Receive => s.(channel := s.channel[1..], worker := Took(s.channel[0], []))
    case RetryTick(order) => s.(retry := {}, worker := Next(order))
    case Crash => s.(open := false, index := map[], dirty := map[], queued := {}, sizes := map[], channel := [],
                     retry := {}, worker := Idle, producers := map[], sweeper := Resting, latest := map[])
    case Open(now, stuck) =>
      var index := Scan(s.files, now, o.ttl);
      s.(open := true, index := index, sizes := SizesOf(index), files := ScanFiles(s.files, now, o.ttl, stuck),
         latest := index, scanOk := Total(SizesOf(index)) <= o.maxBytes)
  }

  ghost function Step(o: Options, s: State, e: Event): (s': State)
    requires Enabled(o, s, e)
    ensures s'.open <==> !e.Crash?
    ensures s'.high == if e.Rename? && !Fails(o, s, e) then s.high[s.worker.room := s.worker.snapshot.stamp] else s.high
  {
    if IsProducerEvent(e) then ProducerStep(s, e)
    else if IsWorkerEvent(e) then WorkerStep(o, s, e)
    else if IsControlEvent(e) then ControlStep(o, s, e)
    else SweepStep(s, e)
  }

  /** A relay that has never run on an empty directory. */
  predicate Init(s: State)
  {
    s == State(map[], map[], {}, map[], [], {}, Idle, map[], Resting, map[], map[], false,
               [], map[], map[], map[], true)
  }

  ghost predicate Legal(o: Options, s: State, events: seq<Event>)
    decreases |events|
  {
    events == [] || (Enabled(o, s, events[0]) && Legal(o, Step(o, s, events[0]), events[1..]))
  }

  ghost function Run(o: Options, s: State, events: seq<Event>): (s': State)
    requires Legal(o, s, events)
    decreases |events|
  {
    if events == [] then s else Run(o, Step(o, s, events[0]), events[1..])
  }

  /** What a starting room actor is handed. */
  function LoadPending(o: Options, s: State, room: Room, now: int): (r: Option<Snapshot>)
  {
    var found := if room in s.dirty then Some(s.dirty[room])
                 else if room in s.index then Some(s.index[room]) else None;
    if found.Some? && !Expired(found.value.ts, now, o.ttl) then found else None
  }
}

/** The quota counts what the worker has accounted; the disk holds what is in the directory. The two part at every
    rename and at every removal from the accounts, and come together again only if the step that follows succeeds. */
module MailboxQuota {
  import opened Prelude
  import opened Mailbox
  import opened MailboxInvariant
  import opened MailboxTurns
  import opened MailboxSweep
  import opened MailboxWitness

  /** The clips that are accounted for after one more step. */
  ghost function Books(o: Options, s: State, e: Event, books: map<Room, Snapshot>): (books': map<Room, Snapshot>)
    requires Enabled(o, s, e)
  {
    match e
    case SyncDir(_) => if Fails(o, s, e) then books else books[s.worker.room := s.worker.snapshot]
    case SweepSize => books - {s.sweeper.target.room}
    case Crash => map[]
    case Open(now, _) => Scan(s.files, now, o.ttl)
    case _ => books
  }

  /** Files a start-up judges expired and cannot delete. */
  function Undeleted(files: map<Room, Content>, now: int, ttl: int, stuck: set<Room>): (rooms: set<Room>)
  {
    set r | r in files && r in stuck && files[r].Complete? && Expired(files[r].snapshot.ts, now, ttl)
  }

  /** Rooms that owe a step: a rename not yet followed by a successful directory sync while the file was there, an
      account removed while the file was there or a file while the account was there, and files a start-up could not
      delete. */
  ghost function Owing(o: Options, s: State, e: Event, owing: set<Room>): (owing': set<Room>)
    requires Enabled(o, s, e)
  {
    match e
    case Rename(_) => if Fails(o, s, e) then owing else owing + {s.worker.room}
    case SyncDir(_) =>
      if Fails(o, s, e) then owing
      else if s.worker.room in s.files then owing - {s.worker.room} else owing + {s.worker.room}
    case SweepSize =>
      if s.sweeper.target.room in s.files then owing + {s.sweeper.target.room} else owing - {s.sweeper.target.room}
    case SweepFile(ok) =>
      if !ok then owing
      else if s.sweeper.target.room in s.sizes then owing + {s.sweeper.target.room}
      else owing - {s.sweeper.target.room}
    case Crash => s.files.Keys
    case Open(now, stuck) => Undeleted(s.files, now, o.ttl, stuck)
    case _ => owing
  }

  ghost function BooksAfter(o: Options, s: State, events: seq<Event>, books: map<Room, Snapshot>):
    (books': map<Room, Snapshot>)
    requires Legal(o, s, events)
    decreases |events|
  {
    if events == [] then books else BooksAfter(o, Step(o, s, events[0]), events[1..], Books(o, s, events[0], books))
  }

  ghost function OwingAfter(o: Options, s: State, events: seq<Event>, owing: set<Room>): (owing': set<Room>)
    requires Legal(o, s, events)
    decreases |events|
  {
    if events == [] then owing else OwingAfter(o, Step(o, s, events[0]), events[1..], Owing(o, s, events[0], owing))
  }

  /** File and account of the room are of the same clip, or there is neither. */
  predicate Agrees(files: map<Room, Content>, books: map<Room, Snapshot>, r: Room)
  {
    (r in files <==> r in books) && (r in files && r in books ==> files[r] == Complete(books[r]))
  }

  predicate BooksOk(s: State, books: map<Room, Snapshot>)
  {
    s.sizes == SizesOf(books) && forall r :: r in books ==> Logged(s.log, r, books[r])
  }

  /** What is still to be accounted is newer than what is. */
  predicate Behind(s: State, books: map<Room, Snapshot>)
  {
    && (forall r :: r in s.dirty && r in books ==> books[r].stamp < s.dirty[r].stamp)
    && (Writing(s.worker) && !s.worker.Accounted? && s.worker.room in books ==>
          books[s.worker.room].stamp < s.worker.snapshot.stamp)
  }

  ghost predicate OwingOk(files: map<Room, Content>, books: map<Room, Snapshot>, owing: set<Room>)
  {
    forall r :: r in owing <==> !Agrees(files, books, r)
  }

  ghost predicate Ledger(s: State, books: map<Room, Snapshot>, owing: set<Room>)
  {
    BooksOk(s, books) && Behind(s, books) && OwingOk(s.files, books, owing)
  }

  /** One room's file or account changes. */
  lemma {:induction false} OneRoomOwes(files: map<Room, Content>, books: map<Room, Snapshot>, owing: set<Room>,
                                       files': map<Room, Content>, books': map<Room, Snapshot>, r: Room)
    requires OwingOk(files, books, owing)
    requires files' - {r} == files - {r} && books' - {r} == books - {r}
    ensures OwingOk(files', books', if Agrees(files', books', r) then owing - {r} else owing + {r})
  {
    forall x | x != r
      ensures Agrees(files', books', x) <==> Agrees(files, books, x)
    {
      assert x in files' <==> x in files' - {r};
      assert x in files <==> x in files - {r};
      assert x in books' <==> x in books' - {r};
      assert x in books <==> x in books - {r};
    }
  }

  lemma {:induction false} ProducerLedger(o: Options, s: State, e: Event, books: map<Room, Snapshot>, owing: set<Room>)
    requires Ledger(s, books, owing) && Enabled(o, s, e) && IsProducerEvent(e)
    ensures Ledger(ProducerStep(s, e), books, owing)
  {
  }

  lemma {:induction false} GiveBackLedger(s: State, books: map<Room, Snapshot>, owing: set<Room>)
    requires Ledger(s, books, owing) && Writing(s.worker) && !s.worker.Accounted?
    ensures Ledger(GiveBack(s), books, owing)
  {
  }

  lemma {:induction false} SyncedFile(s: State)
    requires FileInv(s) && s.worker.Renamed? && s.worker.room in s.files
    ensures s.files[s.worker.room] == Complete(s.worker.snapshot)
  {
    assert WorkerAhead(s.worker, s.dirty, s.high, s.temps, s.log);
  }

  lemma {:induction false} SizesChange(books: map<Room, Snapshot>, r: Room, x: Snapshot)
    ensures SizesOf(books[r := x]) == SizesOf(books)[r := x.size]
    ensures SizesOf(books - {r}) == SizesOf(books) - {r}
  {
  }

  lemma {:induction false} SyncDirBooks(o: Options, s: State, e: Event, books: map<Room, Snapshot>)
    requires BooksOk(s, books) && Behind(s, books) && FileInv(s) && Enabled(o, s, e) && e.SyncDir? && !Fails(o, s, e)
    ensures var books' := books[s.worker.room := s.worker.snapshot];
            BooksOk(Advance(o, s, e), books') && Behind(Advance(o, s, e), books')
  {
    assert WorkerAhead(s.worker, s.dirty, s.high, s.temps, s.log);
    SizesChange(books, s.worker.room, s.worker.snapshot);
  }

  lemma {:induction false} SyncDirOwing(s: State, books: map<Room, Snapshot>, owing: set<Room>)
    requires OwingOk(s.files, books, owing) && FileInv(s) && s.worker.Renamed?
    ensures var r := s.worker.room;
            OwingOk(s.files, books[r := s.worker.snapshot], if r in s.files then owing - {r} else owing + {r})
  {
    var r := s.worker.room;
    if r in s.files {
      SyncedFile(s);
    }
    var books' := books[r := s.worker.snapshot];
    assert books' - {r} == books - {r};
    OneRoomOwes(s.files, books, owing, s.files, books', r);
  }

  lemma {:induction false} SyncDirLedger(o: Options, s: State, e: Event, books: map<Room, Snapshot>, owing: set<Room>)
    requires Ledger(s, books, owing) && FileInv(s) && Enabled(o, s, e) && e.SyncDir? && !Fails(o, s, e)
    ensures Ledger(Advance(o, s, e), Books(o, s, e, books), Owing(o, s, e, owing))
  {
    SyncDirBooks(o, s, e, books);
    SyncDirOwing(s, books, owing);
  }

  lemma {:induction false} RenameLedger(o: Options, s: State, e: Event, books: map<Room, Snapshot>, owing: set<Room>)
    requires Ledger(s, books, owing) && FileInv(s) && Enabled(o, s, e) && e.Rename? && !Fails(o, s, e)
    ensures Ledger(Advance(o, s, e), books, Owing(o, s, e, owing))
  {
    var r, files' := s.worker.room, Advance(o, s, e).files;
    assert WorkerAhead(s.worker, s.dirty, s.high, s.temps, s.log);
    assert files'[r] == Complete(s.worker.snapshot);
    OneRoomOwes(s.files, books, owing, files', books, r);
  }

  lemma {:induction false} AdvanceLedger(o: Options, s: State, e: Event, books: map<Room, Snapshot>, owing: set<Room>)
    requires Ledger(s, books, owing) && Enabled(o, s, e) && IsWorkerEvent(e) && !Fails(o, s, e)
    requires !e.SyncDir? && !e.Rename?
    ensures Ledger(Advance(o, s, e), books, owing)
  {
  }

  lemma {:induction false} SweepSizeLedger(s: State, books: map<Room, Snapshot>, owing: set<Room>)
    requires Ledger(s, books, owing) && s.sweeper.Unindexed?
    ensures var r := s.sweeper.target.room;
            Ledger(SweepStep(s, SweepSize), books - {r}, if r in s.files then owing + {r} else owing - {r})
  {
    var r := s.sweeper.target.room;
    SizesChange(books, r, s.sweeper.target.snapshot);
    assert books - {r} - {r} == books - {r};
    OneRoomOwes(s.files, books, owing, s.files, books - {r}, r);
  }

  lemma {:induction false} SweepFileLedger(s: State, books: map<Room, Snapshot>, owing: set<Room>)
    requires Ledger(s, books, owing) && s.sweeper.Unsized?
    ensures var r := s.sweeper.target.room;
            Ledger(SweepStep(s, SweepFile(true)), books, if r in s.sizes then owing + {r} else owing - {r})
  {
    var r := s.sweeper.target.room;
    assert s.files - {r} - {r} == s.files - {r};
    OneRoomOwes(s.files, books, owing, s.files - {r}, books, r);
  }

  lemma {:induction false} SweepOtherLedger(o: Options, s: State, e: Event, books: map<Room, Snapshot>,
                                            owing: set<Room>)
    requires Ledger(s, books, owing) && Enabled(o, s, e) && IsSweepEvent(e)
    requires !e.SweepSize? && !(e.SweepFile? && e.ok)
    ensures Ledger(SweepStep(s, e), books, owing)
  {
  }

  lemma {:induction false} SweepLedger(o: Options, s: State, e: Event, books: map<Room, Snapshot>, owing: set<Room>)
    requires Ledger(s, books, owing) && Enabled(o, s, e) && IsSweepEvent(e)
    ensures Ledger(SweepStep(s, e), Books(o, s, e, books), Owing(o, s, e, owing))
  {
    if e.SweepSize? {
      SweepSizeLedger(s, books, owing);
    } else if e.SweepFile? && e.ok {
      SweepFileLedger(s, books, owing);
    } else {
      SweepOtherLedger(o, s, e, books, owing);
    }
  }

  /** A stopped relay accounts for nothing, and every file owes. */
  lemma {:induction false} StoppedLedger(s: State)
    requires s.sizes == map[] && s.dirty == map[] && s.worker.Idle?
    ensures Ledger(s, map[], s.files.Keys)
  {
  }

  /** A relay that has just scanned its directory. */
  lemma {:induction false} StartedLedger(o: Options, s: State, files: map<Room, Content>, high: map<Room, nat>,
                                         now: int, stuck: set<Room>)
    requires FilesNewest(files, high, s.log) && s.dirty == map[] && s.worker.Idle?
    requires s.sizes == SizesOf(Scan(files, now, o.ttl)) && s.files == ScanFiles(files, now, o.ttl, stuck)
    ensures Ledger(s, Scan(files, now, o.ttl), Undeleted(files, now, o.ttl, stuck))
  {
  }

  lemma {:induction false} PickUpLedger(o: Options, s: State, e: Event, books: map<Room, Snapshot>, owing: set<Room>)
    requires Ledger(s, books, owing) && Enabled(o, s, e) && (e.Receive? || e.RetryTick?)
    ensures Ledger(ControlStep(o, s, e), books, owing)
  {
  }

  lemma {:induction false} WorkerLedger(o: Options, s: State, e: Event, books: map<Room, Snapshot>, owing: set<Room>)
    requires Ledger(s, books, owing) && FileInv(s) && Enabled(o, s, e) && IsWorkerEvent(e)
    ensures Ledger(WorkerStep(o, s, e), Books(o, s, e, books), Owing(o, s, e, owing))
  {
    if Fails(o, s, e) {
      GiveBackLedger(s, books, owing);
    } else if e.SyncDir? {
      SyncDirLedger(o, s, e, books, owing);
    } else if e.Rename? {
      RenameLedger(o, s, e, books, owing);
    } else {
      AdvanceLedger(o, s, e, books, owing);
    }
  }

  /** The ledger after a step. */
  ghost predicate Follows(o: Options, s: State, e: Event, books: map<Room, Snapshot>, owing: set<Room>)
    requires Enabled(o, s, e)
  {
    Ledger(Step(o, s, e), Books(o, s, e, books), Owing(o, s, e, owing))
  }

  lemma {:induction false} StopFollows(o: Options, s: State, books: map<Room, Snapshot>, owing: set<Room>)
    ensures Follows(o, s, Crash, books, owing)
  {
    StoppedLedger(Step(o, s, Crash));
  }

  lemma {:induction false} StartFollows(o: Options, s: State, now: int, stuck: set<Room>, books: map<Room, Snapshot>,
                                        owing: set<Room>)
    requires FilesNewest(s.files, s.high, s.log) && s.dirty == map[] && s.worker.Idle? && !s.open
    ensures Follows(o, s, Open(now, stuck), books, owing)
  {
    StartedLedger(o, Step(o, s, Open(now, stuck)), s.files, s.high, now, stuck);
  }

  lemma {:induction false} PickUpFollows(o: Options, s: State, e: Event, books: map<Room, Snapshot>, owing: set<Room>)
    requires Ledger(s, books, owing) && Enabled(o, s, e) && (e.Receive? || e.RetryTick?)
    ensures Follows(o, s, e, books, owing)
  {
    PickUpLedger(o, s, e, books, owing);
  }

  lemma {:induction false} ProducerFollows(o: Options, s: State, e: Event, books: map<Room, Snapshot>,
                                           owing: set<Room>)
    requires Ledger(s, books, owing) && Enabled(o, s, e) && IsProducerEvent(e)
    ensures Follows(o, s, e, books, owing)
  {
    ProducerLedger(o, s, e, books, owing);
  }

  lemma {:induction false} WorkerFollows(o: Options, s: State, e: Event, books: map<Room, Snapshot>, owing: set<Room>)
    requires Ledger(s, books, owing) && FileInv(s) && Enabled(o, s, e) && IsWorkerEvent(e)
    ensures Follows(o, s, e, books, owing)
  {
    WorkerLedger(o, s, e, books, owing);
  }

  lemma {:induction false} SweepFollows(o: Options, s: State, e: Event, books: map<Room, Snapshot>, owing: set<Room>)
    requires Ledger(s, books, owing) && Enabled(o, s, e) && IsSweepEvent(e)
    ensures Follows(o, s, e, books, owing)
  {
    SweepLedger(o, s, e, books, owing);
  }

  lemma {:induction false} StepLedger(o: Options, s: State, e: Event, books: map<Room, Snapshot>, owing: set<Room>)
    requires Ledger(s, books, owing) && FileInv(s) && DownInv(s) && Enabled(o, s, e)
    ensures Follows(o, s, e, books, owing)
  {
    if IsProducerEvent(e) {
      ProducerFollows(o, s, e, books, owing);
    } else if IsWorkerEvent(e) {
      WorkerFollows(o, s, e, books, owing);
    } else if e.Crash? {
      StopFollows(o, s, books, owing);
    } else if e.Open? {
      StartFollows(o, s, e.now, e.stuck, books, owing);
    } else if IsControlEvent(e) {
      PickUpFollows(o, s, e, books, owing);
    } else {
      SweepFollows(o, s, e, books, owing);
    }
  }

  lemma {:induction false} RunLedger(o: Options, s: State, events: seq<Event>, books: map<Room, Snapshot>,
                                     owing: set<Room>)
    requires Ledger(s, books, owing) && Inv(o, s) && Legal(o, s, events)
    ensures Ledger(Run(o, s, events), BooksAfter(o, s, events, books), OwingAfter(o, s, events, owing))
    decreases |events|
  {
    if events != [] {
      StepKeepsInv(o, s, events[0]);
      StepLedger(o, s, events[0], books, owing);
      RunLedger(o, Step(o, s, events[0]), events[1..], Books(o, s, events[0], books), Owing(o, s, events[0], owing));
    }
  }

  /** Over every run: the accounts are the sizes of the accounted clips, and a room's file is the accounted clip, or
      neither is there, exactly when the room owes nothing. */
  lemma {:induction false} DiskMatchesAccountsExactly(o: Options, s: State, events: seq<Event>, r: Room)
    requires Init(s) && Legal(o, s, events)
    ensures var s', books := Run(o, s, events), BooksAfter(o, s, events, map[]);
            && s'.sizes == SizesOf(books)
            && (Agrees(s'.files, books, r) <==> r !in OwingAfter(o, s, events, {}))
  {
    InitEstablishesInv(o, s);
    RunLedger(o, s, events, map[], {});
  }

  /** The bytes in the directory. */
  function DiskSizes(files: map<Room, Content>): (sizes: map<Room, nat>)
  {
    map r | r in files && files[r].Complete? :: files[r].snapshot.size
  }

  lemma {:induction false} SameSizes(files: map<Room, Content>, books: map<Room, Snapshot>)
    requires OwingOk(files, books, {})
    ensures DiskSizes(files) == SizesOf(books)
  {
    forall r | r in files || r in books
      ensures r in files && r in books && files[r] == Complete(books[r])
    {
      assert r !in {};
      assert Agrees(files, books, r);
    }
  }

  /** When no room owes anything the directory holds exactly the accounted bytes, so after a start-up scan within quota
      it is within quota itself. */
  lemma {:induction false} DiskWithinQuota(o: Options, s: State, events: seq<Event>)
    requires Init(s) && Legal(o, s, events) && OwingAfter(o, s, events, {}) == {}
    ensures var s' := Run(o, s, events);
            && DiskSizes(s'.files) == s'.sizes
            && (s'.scanOk ==> Total(DiskSizes(s'.files)) <= o.maxBytes)
  {
    InitEstablishesInv(o, s);
    RunLedger(o, s, events, map[], {});
    var s', books := Run(o, s, events), BooksAfter(o, s, events, map[]);
    SameSizes(s'.files, books);
    if s'.scanOk {
      QuotaRespected(o, s, events);
    }
  }

  // ---- A directory over quota ----

  /** A first clip of `a` is renamed into place but never accounted; then `b` is published. */
  ghost function OverEvents(o: Options, s: State, at: int, a: Room, x: Snapshot, b: Room, y: Snapshot):
    (events: seq<Event>)
  {
    var mid := Failed(Started(s), a, x);
    [Open(at, {})] + FailedEvents(o, Started(s), a, x)
    + (HandEvents(mid, 0, b, y) + ServeEvents(o, Handed(mid, b, y), b, AllWell))
  }

  lemma {:induction false} TwoFiles(a: Room, x: Snapshot, b: Room, y: Snapshot)
    requires a != b
    ensures Total(DiskSizes(map[a := Complete(x)][b := Complete(y)])) == x.size + y.size
  {
    var none: map<Room, nat> := map[];
    var one := none[a := x.size];
    TotalUpdate(none, a, x.size);
    assert none - {a} == none;
    TotalUpdate(one, b, y.size);
    assert one - {b} == one;
    assert DiskSizes(map[a := Complete(x)][b := Complete(y)]) == one[b := y.size];
  }

  lemma {:induction false} SecondRuns(o: Options, s: State, b: Room, y: Snapshot)
    requires s.open && s.worker.Idle? && s.channel == [] && s.producers == map[] && s.queued == {} && s.sizes == map[]
    requires ValidRoom(b) && y.stamp == |s.log| && y.size <= o.maxBytes
    ensures RunsTo(o, s, HandEvents(s, 0, b, y) + ServeEvents(o, Handed(s, b, y), b, AllWell),
                   Published(Handed(s, b, y), b))
  {
    OneRoom(b, y, y);
    HandedRuns(o, s, 0, b, y);
    ServeRuns(o, Handed(s, b, y), b, AllWell);
    Then(o, s, HandEvents(s, 0, b, y), Handed(s, b, y), ServeEvents(o, Handed(s, b, y), b, AllWell),
         Published(Handed(s, b, y), b));
  }

  /** From an empty directory, two clips within quota: after a write that fails past its rename the directory holds
      more than the quota, while the accounts are within it. */
  lemma {:induction false} DiskOverQuota(o: Options, s: State, at: int, a: Room, x: Snapshot, b: Room, y: Snapshot)
    requires Init(s) && ValidRoom(a) && ValidRoom(b) && a != b && x.stamp == 0 && y.stamp == 1
    requires x.size <= o.maxBytes && y.size <= o.maxBytes < x.size + y.size
    ensures var events := OverEvents(o, s, at, a, x, b, y);
            && Legal(o, s, events)
            && var s' := Run(o, s, events);
            s'.scanOk && Total(s'.sizes) <= o.maxBytes < Total(DiskSizes(s'.files)) == x.size + y.size
  {
    OneRoom(a, x, x);
    StartRuns(o, s, at);
    FailedRuns(o, Started(s), a, x);
    var mid := Failed(Started(s), a, x);
    SecondRuns(o, mid, b, y);
    var end := Published(Handed(mid, b, y), b);
    Chain(o, s, [Open(at, {})], Started(s), FailedEvents(o, Started(s), a, x), mid,
          HandEvents(mid, 0, b, y) + ServeEvents(o, Handed(mid, b, y), b, AllWell), end);
    assert end.files == map[a := Complete(x)][b := Complete(y)];
    TwoFiles(a, x, b, y);
    QuotaRespected(o, s, OverEvents(o, s, at, a, x, b, y));
  }
}

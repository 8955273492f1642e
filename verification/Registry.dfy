/** The room registry: which two identities a room belongs to, kept in memory and in one file that every
    change rewrites before memory is swapped. */
module Registry {
  import opened Prelude
  import Crypto

  type RoomId = Bytes
  type Fp = Bytes

  const MAX_ROOMS: nat := 100

  /** `first` sorts before `second`. */
  datatype Record = Record(first: Fp, second: Fp, created: int, activated: Option<int>)

  type Rooms = map<RoomId, Record>

  datatype State = State(mem: Rooms, disk: Rooms, up: bool)

  datatype Answer = Created | Existing | Activated | Unchanged | Pruned(count: nat) | Refused

  datatype Event =
    | Register(room: RoomId, a: Fp, b: Fp, at: int, write: Commit)
    | Activate(room: RoomId, fp: Fp, at: int, write: Commit)
    | Prune(cutoff: int, write: Commit)
    | Crash
    | Open

  predicate ValidMembers(a: Fp, b: Fp)
  {
    a != b && Crypto.IsHex(a, 64) && Crypto.IsHex(b, 64)
  }

  /** The canonical record of an unordered pair. */
  function NewRecord(a: Fp, b: Fp, at: int): (r: Record)
  {
    if Crypto.LexLe(a, b) then Record(a, b, at, None) else Record(b, a, at, None)
  }

  predicate SameMembers(x: Record, y: Record)
  {
    x.first == y.first && x.second == y.second
  }

  function Persist(s: State, next: Rooms, write: Commit): (s': State)
  {
    match write
    case Durable => s.(mem := next, disk := next)
    case FailedOld => s
    case FailedNew => s.(disk := next)
  }

  predicate Kept(r: Record, cutoff: int)
  {
    r.activated.Some? || r.created >= cutoff
  }

  function Retained(rooms: Rooms, cutoff: int): (kept: Rooms)
  {
    map r | r in rooms && Kept(rooms[r], cutoff) :: rooms[r]
  }

  function CommitRoom(s: State, room: RoomId, a: Fp, b: Fp, at: int, write: Commit): (out: (State, Answer))
  {
    if !Crypto.IsHex(room, 32) || !ValidMembers(a, b) then (s, Refused)
    else if room in s.mem then (s, if SameMembers(s.mem[room], NewRecord(a, b, at)) then Existing else Refused)
    else if |s.mem| >= MAX_ROOMS then (s, Refused)
    else (Persist(s, s.mem[room := NewRecord(a, b, at)], write), if write.Durable? then Created else Refused)
  }

  function ActivateRoom(s: State, room: RoomId, fp: Fp, at: int, write: Commit): (out: (State, Answer))
  {
    if room !in s.mem || s.mem[room].activated.Some? || (fp != s.mem[room].first && fp != s.mem[room].second) then
      (s, Unchanged)
    else
      (Persist(s, s.mem[room := s.mem[room].(activated := Some(at))], write),
       if write.Durable? then Activated else Refused)
  }

  function PruneRooms(s: State, cutoff: int, write: Commit): (out: (State, Answer))
  {
    var next := Retained(s.mem, cutoff);
    if |s.mem| <= |next| then (s, Pruned(0))
    else (Persist(s, next, write), if write.Durable? then Pruned(|s.mem| - |next|) else Refused)
  }

  predicate Enabled(s: State, e: Event)
  {
    s.up <==> !e.Open?
  }

  function Result(s: State, e: Event): (out: (State, Answer))
  {
    match e
    case Register(room, a, b, at, write) => CommitRoom(s, room, a, b, at, write)
    case Activate(room, fp, at, write) => ActivateRoom(s, room, fp, at, write)
    case Prune(cutoff, write) => PruneRooms(s, cutoff, write)
    case Crash => (s.(mem := map[], up := false), Unchanged)
    case Open => (s.(mem := s.disk, up := true), Unchanged)
  }

  function Step(s: State, e: Event): (s': State)
  {
    Result(s, e).0
  }

  predicate Legal(s: State, events: seq<Event>)
    decreases |events|
  {
    events == [] || (Enabled(s, events[0]) && Legal(Step(s, events[0]), events[1..]))
  }

  function Run(s: State, events: seq<Event>): (s': State)
    requires Legal(s, events)
    decreases |events|
  {
    if events == [] then s else Run(Step(s, events[0]), events[1..])
  }

  predicate Init(s: State)
  {
    s == State(map[], map[], false)
  }

  // ---- Every reachable registry ----

  predicate ValidRooms(rooms: Rooms)
  {
    && |rooms| <= MAX_ROOMS
    && forall r :: r in rooms ==>
         && Crypto.IsHex(r, 32) && ValidMembers(rooms[r].first, rooms[r].second)
         && Crypto.LexLe(rooms[r].first, rooms[r].second)
  }

  predicate Inv(s: State)
  {
    ValidRooms(s.mem) && ValidRooms(s.disk)
  }

  lemma {:induction false} RetainedShrinks(rooms: Rooms, cutoff: int)
    ensures |Retained(rooms, cutoff)| <= |rooms|
    ensures |Retained(rooms, cutoff)| == |rooms| <==> Retained(rooms, cutoff) == rooms
  {
    var kept := Retained(rooms, cutoff);
    assert kept.Keys <= rooms.Keys;
    SubsetSize(kept.Keys, rooms.Keys);
    if kept.Keys == rooms.Keys {
      assert kept == rooms;
    }
  }

  lemma {:induction false} SubsetSize<T>(a: set<T>, b: set<T>)
    requires a <= b
    ensures |a| <= |b| && (|a| == |b| <==> a == b)
  {
    assert b == a + (b - a);
  }

  lemma {:induction false} AddKeepsValid(rooms: Rooms, room: RoomId, a: Fp, b: Fp, at: int)
    requires ValidRooms(rooms) && room !in rooms && |rooms| < MAX_ROOMS && Crypto.IsHex(room, 32) && ValidMembers(a, b)
    ensures ValidRooms(rooms[room := NewRecord(a, b, at)])
  {
    Crypto.LexTotal(a, b);
  }

  lemma {:induction false} RetainKeepsValid(rooms: Rooms, cutoff: int)
    requires ValidRooms(rooms)
    ensures ValidRooms(Retained(rooms, cutoff))
  {
    RetainedShrinks(rooms, cutoff);
  }

  lemma {:induction false} PersistKeepsInv(s: State, next: Rooms, write: Commit)
    requires Inv(s) && ValidRooms(next)
    ensures Inv(Persist(s, next, write))
  {
  }

  lemma {:induction false} CommitKeepsInv(s: State, room: RoomId, a: Fp, b: Fp, at: int, write: Commit)
    requires Inv(s)
    ensures Inv(CommitRoom(s, room, a, b, at, write).0)
  {
    if Crypto.IsHex(room, 32) && ValidMembers(a, b) && room !in s.mem && |s.mem| < MAX_ROOMS {
      AddKeepsValid(s.mem, room, a, b, at);
      PersistKeepsInv(s, s.mem[room := NewRecord(a, b, at)], write);
    }
  }

  lemma {:induction false} ActivateKeepsInv(s: State, room: RoomId, fp: Fp, at: int, write: Commit)
    requires Inv(s)
    ensures Inv(ActivateRoom(s, room, fp, at, write).0)
  {
  }

  lemma {:induction false} PruneKeepsInv(s: State, cutoff: int, write: Commit)
    requires Inv(s)
    ensures Inv(PruneRooms(s, cutoff, write).0)
  {
    RetainKeepsValid(s.mem, cutoff);
    PersistKeepsInv(s, Retained(s.mem, cutoff), write);
  }

  lemma {:induction false} StepKeepsInv(s: State, e: Event)
    requires Inv(s)
    ensures Inv(Step(s, e))
  {
    match e
    case Register(room, a, b, at, write) => CommitKeepsInv(s, room, a, b, at, write);
    case Activate(room, fp, at, write) => ActivateKeepsInv(s, room, fp, at, write);
    case Prune(cutoff, write) => PruneKeepsInv(s, cutoff, write);
    case Crash =>
    case Open =>
  }

  lemma {:induction false} RunKeepsInv(s: State, events: seq<Event>)
    requires Inv(s) && Legal(s, events)
    ensures Inv(Run(s, events))
    decreases |events|
  {
    if events != [] {
      StepKeepsInv(s, events[0]);
      RunKeepsInv(Step(s, events[0]), events[1..]);
    }
  }

  /** In every reachable state, memory and file hold at most 100 rooms, each with a well-formed id and two
      distinct fingerprints in canonical order. */
  lemma {:induction false} AlwaysTwoDistinctMembers(s: State, events: seq<Event>)
    requires Init(s) && Legal(s, events)
    ensures Inv(Run(s, events))
  {
    RunKeepsInv(s, events);
  }

  // ---- What the answers promise ----

  /** An accepted commit means the room belongs to exactly these two identities; a refused one leaves
      memory alone. */
  lemma {:induction false} CommitPromise(s: State, room: RoomId, a: Fp, b: Fp, at: int, write: Commit)
    ensures var (s', answer) := CommitRoom(s, room, a, b, at, write);
            && (answer.Created? || answer.Existing? || answer.Refused?)
            && (!answer.Refused? ==> room in s'.mem && {s'.mem[room].first, s'.mem[room].second} == {a, b})
            && (!answer.Created? ==> s'.mem == s.mem)
            && (answer.Created? ==> s'.disk == s'.mem && s'.mem - {room} == s.mem - {room} && room !in s.mem)
  {
  }

  /** A room can be registered for these two identities. */
  predicate WellFormed(room: RoomId, a: Fp, b: Fp)
  {
    && |room| == 32 && |a| == 64 && |b| == 64 && a != b
    && (forall i :: 0 <= i < 32 ==> Crypto.IsLowerHex(room[i]))
    && (forall i :: 0 <= i < 64 ==> Crypto.IsLowerHex(a[i]) && Crypto.IsLowerHex(b[i]))
  }

  /** A commit is answered `Created` exactly if the room is new, there are fewer than 100 and the file is written,
      `Existing` exactly if the room is there for these two identities, and is refused in every other case. What it adds
      is the pair, unactivated, at that time. */
  lemma {:induction false} CommitAnsweredExactly(s: State, room: RoomId, a: Fp, b: Fp, at: int, write: Commit)
    requires Inv(s)
    ensures var (s', answer) := CommitRoom(s, room, a, b, at, write);
            var proper := WellFormed(room, a, b);
            && (answer.Created? <==> proper && room !in s.mem && |s.mem| < 100 && write.Durable?)
            && (answer.Existing? <==> proper && room in s.mem && {s.mem[room].first, s.mem[room].second} == {a, b})
            && (answer.Created? || answer.Existing? || answer.Refused?)
            && (answer.Created? ==>
                  && room in s'.mem && s'.mem[room].created == at && s'.mem[room].activated.None?
                  && s'.mem == s.mem[room := s'.mem[room]])
            && s'.up == s.up
            && (s'.disk == s.disk || (proper && room !in s.mem && |s.mem| < 100 && !write.FailedOld?))
  {
    if WellFormed(room, a, b) {
      Crypto.LexTotal(a, b);
    }
  }

  /** The first join of a member activates a room, exactly once and only if the file is written; otherwise nothing
      changes in memory. */
  lemma {:induction false} ActivateAnsweredExactly(s: State, room: RoomId, fp: Fp, at: int, write: Commit)
    ensures var (s', answer) := ActivateRoom(s, room, fp, at, write);
            var due := room in s.mem && s.mem[room].activated.None? && fp in {s.mem[room].first, s.mem[room].second};
            && (answer.Activated? <==> due && write.Durable?) && (answer.Refused? <==> due && !write.Durable?)
            && (answer.Unchanged? <==> !due)
            && s'.mem == (if answer.Activated? then s.mem[room := s.mem[room].(activated := Some(at))] else s.mem)
            && s'.up == s.up && (!due || write.FailedOld? ==> s' == s)
  {
  }

  /** Pruning drops exactly the rooms nobody has joined that were created before the cutoff, if there are any and the
      file is written, and says how many. */
  lemma {:induction false} PrunedExactly(s: State, cutoff: int, write: Commit, room: RoomId)
    ensures var (s', answer) := PruneRooms(s, cutoff, write);
            var doomed := set r | r in s.mem && s.mem[r].activated.None? && s.mem[r].created < cutoff;
            && (doomed == {} ==> s' == s && answer == Pruned(0))
            && (doomed != {} ==> answer == if write.Durable? then Pruned(|doomed|) else Refused)
            && (room in s'.mem <==> room in s.mem && !(room in doomed && write.Durable?))
            && (room in s'.mem ==> s'.mem[room] == s.mem[room])
            && s'.up == s.up && (write.FailedOld? ==> s' == s)
  {
    RetainedShrinks(s.mem, cutoff);
    var doomed := set r | r in s.mem && s.mem[r].activated.None? && s.mem[r].created < cutoff;
    var kept := Retained(s.mem, cutoff);
    assert kept.Keys == s.mem.Keys - doomed;
    assert |s.mem.Keys| == |kept.Keys| + |doomed| by {
      assert s.mem.Keys == kept.Keys + doomed && kept.Keys !! doomed;
    }
  }

  /** The order in which the two identities are given does not matter. */
  lemma {:induction false} CommitUnordered(s: State, room: RoomId, a: Fp, b: Fp, at: int, write: Commit)
    ensures CommitRoom(s, room, b, a, at, write) == CommitRoom(s, room, a, b, at, write)
  {
    Crypto.LexTotal(a, b);
    assert a != b ==> NewRecord(a, b, at) == NewRecord(b, a, at);
  }

  /** A step never changes whose room it is. */
  lemma {:induction false} MembersNeverChange(s: State, e: Event, room: RoomId)
    requires !e.Open? && room in s.mem && room in Step(s, e).mem
    ensures SameMembers(Step(s, e).mem[room], s.mem[room])
  {
  }

  /** The room is durably activated. */
  predicate DurablyActive(s: State, room: RoomId, r: Record)
  {
    && r.activated.Some? && room in s.disk && s.disk[room] == r
    && (s.up ==> room in s.mem && s.mem[room] == r)
  }

  /** A successful activation is durable. */
  lemma {:induction false} ActivationIsDurable(s: State, room: RoomId, fp: Fp, at: int, write: Commit)
    requires s.up
    ensures var (s', answer) := ActivateRoom(s, room, fp, at, write);
            answer.Activated? ==> room in s.mem && DurablyActive(s', room, s.mem[room].(activated := Some(at)))
  {
  }

  /** A durably activated room keeps its members and its activation through every run of commits, activations,
      prunings, failed rewrites, crashes and restarts. */
  lemma {:induction false} ActivatedForGood(s: State, events: seq<Event>, room: RoomId, r: Record)
    requires Legal(s, events) && DurablyActive(s, room, r)
    ensures DurablyActive(Run(s, events), room, r)
    decreases |events|
  {
    if events != [] {
      assert DurablyActive(Step(s, events[0]), room, r);
      ActivatedForGood(Step(s, events[0]), events[1..], room, r);
    }
  }

  /** The file is what memory holds, or a failed rewrite has run ahead of it. */
  predicate InStep(s: State)
  {
    s.up ==> s.disk == s.mem
  }

  /** The call gets as far as rewriting the file. */
  predicate Rewrites(s: State, e: Event)
  {
    match e
    case Register(room, a, b, _, _) =>
      Crypto.IsHex(room, 32) && ValidMembers(a, b) && room !in s.mem && |s.mem| < MAX_ROOMS
    case Activate(room, fp, _, _) =>
      room in s.mem && s.mem[room].activated.None? && (fp == s.mem[room].first || fp == s.mem[room].second)
    case Prune(cutoff, _) => exists r :: r in s.mem && !Kept(s.mem[r], cutoff)
    case _ => false
  }

  /** Memory and file stay in step exactly until a rewrite fails after its rename. */
  lemma {:induction false} OnlyLateFailureDiverges(s: State, e: Event)
    requires InStep(s) && Enabled(s, e)
    ensures InStep(Step(s, e)) <==> !(Rewrites(s, e) && e.write.FailedNew?)
  {
    if e.Prune? {
      RetainedShrinks(s.mem, e.cutoff);
      assert Retained(s.mem, e.cutoff) == s.mem <==> !Rewrites(s, e);
    } else if e.Activate? && Rewrites(s, e) {
      assert s.mem[e.room := s.mem[e.room].(activated := Some(e.at))][e.room] != s.mem[e.room];
    }
  }

  /** Restarting forgets nothing a successful call promised, provided no rewrite failed late. */
  lemma {:induction false} RestartKeepsRooms(s: State)
    requires s.up && InStep(s)
    ensures Step(Step(s, Crash), Open) == s
  {
  }

  // ---- Which rooms a restart would forget ----

  /** What a rewriting call writes. */
  function Rewritten(rooms: Rooms, e: Event): (next: Rooms)
    requires e.Register? || (e.Activate? && e.room in rooms) || e.Prune?
  {
    match e
    case Register(room, a, b, at, _) => rooms[room := NewRecord(a, b, at)]
    case Activate(room, _, at, _) => rooms[room := rooms[room].(activated := Some(at))]
    case Prune(cutoff, _) => Retained(rooms, cutoff)
  }

  /** The call renames a rewritten file into place. */
  predicate Replaces(s: State, e: Event)
  {
    Rewrites(s, e) && !e.write.FailedOld?
  }

  /** The last call since start-up that replaced the file; `last` is the one before the run. */
  function LastReplaced(s: State, events: seq<Event>, last: Option<Event>): (r: Option<Event>)
    requires Legal(s, events)
    decreases |events|
  {
    if events == [] then last
    else
      var e := events[0];
      LastReplaced(Step(s, e), events[1..],
                   if e.Crash? || e.Open? then None else if Replaces(s, e) then Some(e) else last)
  }

  /** The file was last replaced by a call that then failed. */
  predicate LateFailure(last: Option<Event>)
  {
    last.Some? && !last.value.Crash? && !last.value.Open? && last.value.write.FailedNew?
  }

  /** What the last replacement says about the file. */
  predicate Explained(s: State, last: Option<Event>)
  {
    s.up ==>
      if LateFailure(last) then Rewrites(s, last.value) && s.disk == Rewritten(s.mem, last.value)
      else s.disk == s.mem
  }

  lemma {:induction false} StepExplained(s: State, e: Event, last: Option<Event>)
    requires Explained(s, last) && Enabled(s, e) && !e.Crash? && !e.Open?
    ensures Explained(Step(s, e), if Replaces(s, e) then Some(e) else last)
  {
    if e.Prune? {
      RetainedShrinks(s.mem, e.cutoff);
      assert Retained(s.mem, e.cutoff) == s.mem <==> !Rewrites(s, e);
    }
  }

  lemma {:induction false} RunExplained(s: State, events: seq<Event>, last: Option<Event>)
    requires Explained(s, last) && Legal(s, events)
    ensures Explained(Run(s, events), LastReplaced(s, events, last))
    decreases |events|
  {
    if events != [] {
      var e := events[0];
      if !e.Crash? && !e.Open? {
        StepExplained(s, e, last);
      }
      RunExplained(Step(s, e), events[1..],
                   if e.Crash? || e.Open? then None else if Replaces(s, e) then Some(e) else last);
    }
  }

  /** The last replacement was a prune that failed late and drops this record. */
  predicate PrunedLate(last: Option<Event>, r: Record)
  {
    LateFailure(last) && last.value.Prune? && !Kept(r, last.value.cutoff)
  }

  /** Over every run: memory and file differ exactly when the call that last replaced the file failed late; a room in
      memory is missing from the file exactly when that call was a prune that drops it. */
  lemma {:induction false} DivergesExactly(s: State, events: seq<Event>)
    requires Init(s) && Legal(s, events) && Run(s, events).up
    ensures var s', last := Run(s, events), LastReplaced(s, events, None);
            && (s'.disk == s'.mem <==> !LateFailure(last))
            && forall room :: room in s'.mem ==> (room !in s'.disk <==> PrunedLate(last, s'.mem[room]))
  {
    RunExplained(s, events, None);
    var s', last := Run(s, events), LastReplaced(s, events, None);
    if LateFailure(last) && last.value.Activate? {
      var e := last.value;
      assert s'.disk[e.room] != s'.mem[e.room];
    }
  }

  /** Over every run: a room a commit is answered `Existing` for is back after a restart, with the same members, exactly
      unless the file was last replaced by a prune that failed late and drops the room. */
  lemma {:induction false} ExistingSurvivesExactly(s: State, events: seq<Event>, room: RoomId, a: Fp, b: Fp, at: int,
                                                   write: Commit)
    requires Init(s) && Legal(s, events) && Run(s, events).up
    requires CommitRoom(Run(s, events), room, a, b, at, write).1 == Existing
    ensures var s', last := Run(s, events), LastReplaced(s, events, None);
            var back := Step(Step(s', Crash), Open);
            && (room in back.mem <==> !PrunedLate(last, s'.mem[room]))
            && (room in back.mem ==> SameMembers(back.mem[room], s'.mem[room]))
  {
    DivergesExactly(s, events);
    RunExplained(s, events, None);
  }

  predicate NeverLate(events: seq<Event>)
  {
    forall e :: e in events && !e.Crash? && !e.Open? ==> !e.write.FailedNew?
  }

  /** Without a late failure, memory and file stay in step through every run. */
  lemma {:induction false} NeverLateStaysInStep(s: State, events: seq<Event>)
    requires InStep(s) && Legal(s, events) && NeverLate(events)
    ensures InStep(Run(s, events))
    decreases |events|
  {
    if events != [] {
      assert events[0] in events;
      OnlyLateFailureDiverges(s, events[0]);
      NeverLateStaysInStep(Step(s, events[0]), events[1..]);
    }
  }

  /** A successful rewrite brings file and memory together again, whatever failed before, and they stay together until
      the next late failure. */
  lemma {:induction false} DurableRewriteHeals(s: State, e: Event, rest: seq<Event>)
    requires s.up && Rewrites(s, e) && e.write.Durable? && Legal(Step(s, e), rest) && NeverLate(rest)
    ensures InStep(Run(Step(s, e), rest))
  {
    if e.Prune? {
      RetainedShrinks(s.mem, e.cutoff);
    }
    NeverLateStaysInStep(Step(s, e), rest);
  }

  /** `Existing` promises less than `Created`: after a prune whose rewrite failed late the room is still in
      memory, so a commit is answered `Existing`, but the file has lost it and a restart forgets it. */
  lemma {:induction false} ExistingMayBeForgotten(s: State, room: RoomId, a: Fp, b: Fp)
    requires Init(s) && Crypto.IsHex(room, 32) && ValidMembers(a, b)
    ensures var events := [Open] + [Register(room, a, b, 0, Durable)] + [Prune(1, FailedNew)];
            && Legal(s, events)
            && var s' := Run(s, events);
            && CommitRoom(s', room, a, b, 1, Durable).1 == Existing
            && room !in Step(Step(s', Crash), Open).mem
  {
    var create, prune := Register(room, a, b, 0, Durable), Prune(1, FailedNew);
    var s1 := Step(s, Open);
    var s2 := Step(s1, create);
    assert room in s2.mem && !Kept(s2.mem[room], 1);
    RetainedShrinks(s2.mem, 1);
    var s3 := Step(s2, prune);
    assert s3 == s2.(disk := Retained(s2.mem, 1));
    assert Legal(s2, [prune]) && Run(s2, [prune]) == s3 by {
      assert [prune][1..] == [];
    }
    assert Legal(s1, [create] + [prune]) && Run(s1, [create] + [prune]) == s3 by {
      assert ([create] + [prune])[1..] == [prune];
    }
    assert ([Open] + [create] + [prune])[1..] == [create] + [prune];
  }

  // ---- Start-up ----

  datatype Row = Row(room: RoomId, members: seq<Fp>, created: int, activated: Option<int>)

  predicate ValidRow(row: Row)
  {
    Crypto.IsHex(row.room, 32) && |row.members| == 2 && ValidMembers(row.members[0], row.members[1])
  }

  function RowRecord(row: Row): (r: Record)
    requires |row.members| == 2
  {
    NewRecord(row.members[0], row.members[1], row.created).(activated := row.activated)
  }

  /** The first valid row of each room. */
  function Loaded(rows: seq<Row>): (rooms: Rooms)
    decreases |rows|
  {
    if rows == [] then map[]
    else
      var rooms, row := Loaded(rows[..|rows| - 1]), Last(rows);
      if ValidRow(row) && row.room !in rooms then rooms[row.room := RowRecord(row)] else rooms
  }

  function ToRow(room: RoomId, r: Record): (row: Row)
  {
    Row(room, [r.first, r.second], r.created, r.activated)
  }

  /** `rows` lists every room exactly once, in any order. */
  predicate Lists(rows: seq<Row>, rooms: Rooms)
  {
    && |rows| == |rooms|
    && (forall row :: row in rows ==> row.room in rooms && row == ToRow(row.room, rooms[row.room]))
    && (forall i, j :: 0 <= i < j < |rows| ==> rows[i].room != rows[j].room)
  }

  lemma {:induction false} ListsPrefix(rows: seq<Row>, rooms: Rooms)
    requires Lists(rows, rooms) && rows != []
    ensures Lists(rows[..|rows| - 1], rooms - {Last(rows).room})
  {
  }

  lemma {:induction false} RowRoundTrip(room: RoomId, r: Record)
    requires Crypto.IsHex(room, 32) && ValidMembers(r.first, r.second) && Crypto.LexLe(r.first, r.second)
    ensures ValidRow(ToRow(room, r)) && RowRecord(ToRow(room, r)) == r
  {
  }

  lemma {:induction false} SmallerValid(rooms: Rooms, room: RoomId)
    requires ValidRooms(rooms) && room in rooms
    ensures ValidRooms(rooms - {room}) && (rooms - {room})[room := rooms[room]] == rooms
  {
  }

  /** Writing the registry out and reading it back gives the same registry. */
  lemma {:induction false} FileRoundTrip(rows: seq<Row>, rooms: Rooms)
    requires ValidRooms(rooms) && Lists(rows, rooms)
    ensures Loaded(rows) == rooms
    decreases |rows|
  {
    if rows != [] {
      var row := Last(rows);
      assert row in rows;
      ListsPrefix(rows, rooms);
      SmallerValid(rooms, row.room);
      RowRoundTrip(row.room, rooms[row.room]);
      FileRoundTrip(rows[..|rows| - 1], rooms - {row.room});
    } else {
      assert rooms.Keys == {};
    }
  }

  /** The registry as the program runs it. */
  class PersistentRegistry {
    var rooms: Rooms
    ghost var view: State

    ghost predicate Ready()
      reads this
    {
      rooms == view.mem && view.up
    }

    /** Reads the file row by row; malformed and repeated rows are skipped. */
    method LoadRows(rows: seq<Row>) returns (loaded: Rooms)
      ensures loaded == Loaded(rows)
    {
      loaded := map[];
      for i := 0 to |rows|
        invariant loaded == Loaded(rows[..i])
      {
        assert rows[..i + 1][..i] == rows[..i] && Last(rows[..i + 1]) == rows[i];
        if ValidRow(rows[i]) && rows[i].room !in loaded {
          loaded := loaded[rows[i].room := RowRecord(rows[i])];
        }
      }
      assert rows[..|rows|] == rows;
    }

    method Commit(room: RoomId, a: Fp, b: Fp, at: int, write: Commit) returns (answer: Answer)
      requires Ready()
      modifies this
      ensures Ready() && (view, answer) == CommitRoom(old(view), room, a, b, at, write)
    {
      if !Crypto.IsHex(room, 32) || !ValidMembers(a, b) {
        return Refused;
      }
      var record := NewRecord(a, b, at);
      if room in rooms {
        return if SameMembers(rooms[room], record) then Existing else Refused;
      }
      if |rooms| >= MAX_ROOMS {
        return Refused;
      }
      var next := rooms[room := record];
      view := Persist(view, next, write);
      if !write.Durable? {
        return Refused;
      }
      rooms := next;
      return Created;
    }

    /** The first join of a member activates the room, once. */
    method ActivateOnFirstJoin(room: RoomId, fp: Fp, at: int, write: Commit) returns (answer: Answer)
      requires Ready()
      modifies this
      ensures Ready() && (view, answer) == ActivateRoom(old(view), room, fp, at, write)
    {
      if room !in rooms {
        return Unchanged;
      }
      var current := rooms[room];
      if current.activated.Some? || (fp != current.first && fp != current.second) {
        return Unchanged;
      }
      var next := rooms[room := current.(activated := Some(at))];
      view := Persist(view, next, write);
      if !write.Durable? {
        return Refused;
      }
      rooms := next;
      return Activated;
    }

    method PruneUnactivated(cutoff: int, write: Commit) returns (answer: Answer)
      requires Ready()
      modifies this
      ensures Ready() && (view, answer) == PruneRooms(old(view), cutoff, write)
    {
      var next: Rooms := map[];
      var left := rooms.Keys;
      while left != {}
        invariant left <= rooms.Keys
        invariant next == map r | r in rooms && r !in left && Kept(rooms[r], cutoff) :: rooms[r]
      {
        var r :| r in left;
        left := left - {r};
        if Kept(rooms[r], cutoff) {
          next := next[r := rooms[r]];
        }
      }
      assert next == Retained(rooms, cutoff);
      RetainedShrinks(rooms, cutoff);
      var removed := |rooms| - |next|;
      if removed != 0 {
        view := Persist(view, next, write);
        if !write.Durable? {
          return Refused;
        }
        rooms := next;
      }
      return Pruned(removed);
    }
  }
}

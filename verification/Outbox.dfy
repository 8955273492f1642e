/** A connection's bounded outbox: a queue with a slot limit beside one atomic byte counter. Senders add
    their bytes first, then look whether the budget was exceeded, and undo; so the counter runs ahead of
    the queue. Every atomic access is one step, and any number of senders and the receiver interleave. */
module Outbox {
  import opened Prelude

  datatype Unit = Frame(id: nat, size: nat) | Close

  /** A sender between two atomic accesses; `before` is what its `fetch_add` returned. */
  datatype Sender =
    | Added(frame: Unit, before: int, reserve: bool)
    | Undoing(frame: Unit, passed: bool)
    | Reserved(frame: Unit)
    | Releasing

  datatype Limits = Limits(maxFrames: nat, maxBytes: nat)

  /** `leaving` is a frame received but not yet subtracted, `lost` the bytes of frames a dropped
      receiver left behind. `pushed` and `received` log the queue's traffic. */
  datatype State = State(queue: seq<Unit>, counter: int, senders: map<nat, Sender>, leaving: Option<nat>, lost: nat,
                         alive: bool, force: bool, pushed: seq<Unit>, received: seq<Unit>)

  datatype Event =
    | Add(t: nat, frame: Unit, reserve: bool)
    | Attempt(t: nat)
    | Undo(t: nat)
    | SendReserved(t: nat)
    | DropReserved(t: nat)
    | Release(t: nat)
    | PushClose
    | Receive
    | ReceiveForced
    | Subtract
    | DropReceiver

  function Size(u: Unit): (bytes: nat)
  {
    if u.Frame? then u.size else 0
  }

  function QueueBytes(queue: seq<Unit>): (bytes: nat)
  {
    if queue == [] then 0 else Size(queue[0]) + QueueBytes(queue[1..])
  }

  predicate Fits(l: Limits, s: Sender)
    requires s.Added?
  {
    s.before + Size(s.frame) <= l.maxBytes
  }

  predicate HoldsSlot(s: Sender)
  {
    s.Reserved? || s.Releasing?
  }

  function SlotHolders(senders: map<nat, Sender>): (ts: set<nat>)
  {
    set t | t in senders && HoldsSlot(senders[t])
  }

  predicate SlotFree(l: Limits, s: State)
  {
    s.alive && |s.queue| + |SlotHolders(s.senders)| < l.maxFrames
  }

  predicate Enabled(l: Limits, s: State, e: Event)
  {
    match e
    case Add(t, frame, _) => t !in s.senders && frame.Frame?
    case Attempt(t) => t in s.senders && s.senders[t].Added?
    case Undo(t) => t in s.senders && s.senders[t].Undoing?
    case SendReserved(t) => t in s.senders && s.senders[t].Reserved?
    case DropReserved(t) => t in s.senders && s.senders[t].Reserved?
    case Release(t) => t in s.senders && s.senders[t].Releasing?
    case PushClose => true
    case Receive => s.alive && s.leaving.None? && s.queue != []
    case ReceiveForced => s.alive && s.leaving.None? && s.force
    case Subtract => s.leaving.Some?
    case DropReceiver => s.alive && s.leaving.None?
  }

  function Push(s: State, u: Unit): (s': State)
  {
    s.(queue := s.queue + [u], pushed := s.pushed + [u])
  }

  predicate Enqueues(l: Limits, s: State, t: nat)
    requires t in s.senders && s.senders[t].Added?
  {
    Fits(l, s.senders[t]) && SlotFree(l, s) && !s.senders[t].reserve
  }

  /** A sender that must undo, or holds its reservation. */
  function Attempted(l: Limits, s: State, t: nat): (p: Sender)
    requires t in s.senders && s.senders[t].Added?
  {
    var p := s.senders[t];
    if !Fits(l, p) then Undoing(p.frame, false)
    else if !SlotFree(l, s) then Undoing(p.frame, true)
    else Reserved(p.frame)
  }

  function Step(l: Limits, s: State, e: Event): (s': State)
    requires Enabled(l, s, e)
  {
    match e
    case Add(t, frame, reserve) =>
      s.(counter := s.counter + Size(frame), senders := s.senders[t := Added(frame, s.counter, reserve)])
    case Attempt(t) =>
      if Enqueues(l, s, t) then Push(s.(senders := s.senders - {t}), s.senders[t].frame)
      else s.(senders := s.senders[t := Attempted(l, s, t)])
    case Undo(t) => s.(counter := s.counter - Size(s.senders[t].frame), senders := s.senders - {t})
    case SendReserved(t) =>
      var s1 := s.(senders := s.senders - {t});
      if s.alive then Push(s1, s.senders[t].frame) else s1.(lost := s.lost + Size(s.senders[t].frame))
    case DropReserved(t) =>
      s.(counter := s.counter - Size(s.senders[t].frame), senders := s.senders[t := Releasing])
    case Release(t) => s.(senders := s.senders - {t})
    case PushClose => if SlotFree(l, s) then Push(s, Close) else s.(force := true)
    case Receive =>
      s.(queue := s.queue[1..], received := s.received + [s.queue[0]],
         leaving := if s.queue[0].Frame? then Some(Size(s.queue[0])) else None)
    case ReceiveForced => s.(force := false)
    case Subtract => s.(counter := s.counter - s.leaving.value, leaving := None)
    case DropReceiver => s.(alive := false, queue := [], lost := s.lost + QueueBytes(s.queue))
  }

  predicate Legal(l: Limits, s: State, events: seq<Event>)
    decreases |events|
  {
    events == [] || (Enabled(l, s, events[0]) && Legal(l, Step(l, s, events[0]), events[1..]))
  }

  function Run(l: Limits, s: State, events: seq<Event>): (s': State)
    requires Legal(l, s, events)
    decreases |events|
  {
    if events == [] then s else Run(l, Step(l, s, events[0]), events[1..])
  }

  predicate Init(s: State)
  {
    s == State([], 0, map[], None, 0, true, false, [], [])
  }

  // ---- Accounting ----

  /** Bytes a sender has in the counter. */
  function Counted(s: Sender): (bytes: nat)
  {
    if s.Releasing? then 0 else Size(s.frame)
  }

  /** Bytes a sender has in the counter having passed the budget check. */
  function Charged(l: Limits, s: Sender): (bytes: nat)
  {
    match s
    case Added(frame, _, _) => if Fits(l, s) then Size(frame) else 0
    case Undoing(frame, passed) => if passed then Size(frame) else 0
    case Reserved(frame) => Size(frame)
    case Releasing => 0
  }

  function CountedMap(senders: map<nat, Sender>): (m: map<nat, nat>)
  {
    map t | t in senders :: Counted(senders[t])
  }

  function ChargedMap(l: Limits, senders: map<nat, Sender>): (m: map<nat, nat>)
  {
    map t | t in senders :: Charged(l, senders[t])
  }

  function ReservedMap(senders: map<nat, Sender>): (m: map<nat, nat>)
  {
    map t | t in senders && senders[t].Reserved? :: Size(senders[t].frame)
  }

  function Leaving(s: State): (bytes: nat)
  {
    if s.leaving.Some? then s.leaving.value else 0
  }

  /** The counter is exactly the bytes queued, left behind, leaving, and held by senders. */
  ghost predicate Exact(s: State)
  {
    s.counter == QueueBytes(s.queue) + Total(CountedMap(s.senders)) + Leaving(s) + s.lost
  }

  /** Whatever passed the check fits the budget. */
  ghost predicate WithinBudget(l: Limits, s: State)
  {
    QueueBytes(s.queue) + Total(ChargedMap(l, s.senders)) + Leaving(s) + s.lost <= l.maxBytes
  }

  predicate WithinSlots(l: Limits, s: State)
  {
    s.alive ==> |s.queue| + |SlotHolders(s.senders)| <= l.maxFrames
  }

  /** While the receiver lives the queue is what was pushed and not yet received, in order. */
  predicate Ordered(s: State)
  {
    && (s.alive ==> s.pushed == s.received + s.queue)
    && (!s.alive ==> s.queue == [] && s.received <= s.pushed)
  }

  ghost predicate Inv(l: Limits, s: State)
  {
    Exact(s) && WithinBudget(l, s) && WithinSlots(l, s) && Ordered(s)
  }

  lemma {:induction false} QueueBytesAppend(a: seq<Unit>, b: seq<Unit>)
    ensures QueueBytes(a + b) == QueueBytes(a) + QueueBytes(b)
    decreases |a|
  {
    if a == [] {
      assert a + b == b;
    } else {
      assert (a + b)[0] == a[0] && (a + b)[1..] == a[1..] + b;
      QueueBytesAppend(a[1..], b);
    }
  }

  lemma {:induction false} PushBytes(queue: seq<Unit>, u: Unit)
    ensures QueueBytes(queue + [u]) == QueueBytes(queue) + Size(u)
  {
    QueueBytesAppend(queue, [u]);
    assert [u][1..] == [];
  }

  /** One sender's entry changes: the totals change by that entry alone. */
  lemma {:induction false} SetCounted(senders: map<nat, Sender>, t: nat, p: Sender)
    ensures Total(CountedMap(senders[t := p])) == Total(CountedMap(senders - {t})) + Counted(p)
    ensures Total(CountedMap(senders))
            == Total(CountedMap(senders - {t})) + if t in senders then Counted(senders[t]) else 0
  {
    TotalUpdate(CountedMap(senders), t, Counted(p));
    assert CountedMap(senders[t := p]) == CountedMap(senders)[t := Counted(p)];
    assert CountedMap(senders - {t}) == CountedMap(senders) - {t};
  }

  lemma {:induction false} SetCharged(l: Limits, senders: map<nat, Sender>, t: nat, p: Sender)
    ensures Total(ChargedMap(l, senders[t := p])) == Total(ChargedMap(l, senders - {t})) + Charged(l, p)
    ensures Total(ChargedMap(l, senders))
            == Total(ChargedMap(l, senders - {t})) + if t in senders then Charged(l, senders[t]) else 0
  {
    TotalUpdate(ChargedMap(l, senders), t, Charged(l, p));
    assert ChargedMap(l, senders[t := p]) == ChargedMap(l, senders)[t := Charged(l, p)];
    assert ChargedMap(l, senders - {t}) == ChargedMap(l, senders) - {t};
  }

  lemma {:induction false} ChargedAtMostCounted(l: Limits, senders: map<nat, Sender>)
    ensures Total(ChargedMap(l, senders)) <= Total(CountedMap(senders))
    decreases |senders|
  {
    if senders == map[] {
      assert ChargedMap(l, senders) == map[] && CountedMap(senders) == map[];
    } else {
      var t :| t in senders;
      SetCounted(senders, t, Releasing);
      SetCharged(l, senders, t, Releasing);
      ChargedAtMostCounted(l, senders - {t});
    }
  }

  lemma {:induction false} EnqueueKeepsExact(l: Limits, s: State, t: nat)
    requires Exact(s) && Enabled(l, s, Attempt(t)) && Enqueues(l, s, t)
    ensures Exact(Step(l, s, Attempt(t)))
  {
    SetCounted(s.senders, t, Releasing);
    PushBytes(s.queue, s.senders[t].frame);
  }

  lemma {:induction false} AttemptKeepsExact(l: Limits, s: State, t: nat)
    requires Exact(s) && Enabled(l, s, Attempt(t)) && !Enqueues(l, s, t)
    ensures Exact(Step(l, s, Attempt(t)))
  {
    SetCounted(s.senders, t, Attempted(l, s, t));
  }

  lemma {:induction false} UndoKeepsExact(l: Limits, s: State, t: nat)
    requires Exact(s) && Enabled(l, s, Undo(t))
    ensures Exact(Step(l, s, Undo(t)))
  {
    SetCounted(s.senders, t, Releasing);
  }

  lemma {:induction false} SendReservedKeepsExact(l: Limits, s: State, t: nat)
    requires Exact(s) && Enabled(l, s, SendReserved(t))
    ensures Exact(Step(l, s, SendReserved(t)))
  {
    SetCounted(s.senders, t, Releasing);
    PushBytes(s.queue, s.senders[t].frame);
  }

  lemma {:induction false} DropReservedKeepsExact(l: Limits, s: State, t: nat)
    requires Exact(s) && Enabled(l, s, DropReserved(t))
    ensures Exact(Step(l, s, DropReserved(t)))
  {
    SetCounted(s.senders, t, Releasing);
  }

  lemma {:induction false} ReleaseKeepsExact(l: Limits, s: State, t: nat)
    requires Exact(s) && Enabled(l, s, Release(t))
    ensures Exact(Step(l, s, Release(t)))
  {
    SetCounted(s.senders, t, Releasing);
  }

  lemma {:induction false} AddKeepsExact(l: Limits, s: State, t: nat, frame: Unit, reserve: bool)
    requires Exact(s) && Enabled(l, s, Add(t, frame, reserve))
    ensures Exact(Step(l, s, Add(t, frame, reserve)))
  {
    SetCounted(s.senders, t, Added(frame, s.counter, reserve));
    assert s.senders - {t} == s.senders;
  }

  lemma {:induction false} StepKeepsExact(l: Limits, s: State, e: Event)
    requires Exact(s) && Enabled(l, s, e)
    ensures Exact(Step(l, s, e))
  {
    match e
    case Add(t, frame, reserve) => AddKeepsExact(l, s, t, frame, reserve);
    case Attempt(t) => if Enqueues(l, s, t) { EnqueueKeepsExact(l, s, t); } else { AttemptKeepsExact(l, s, t); }
    case Undo(t) => UndoKeepsExact(l, s, t);
    case SendReserved(t) => SendReservedKeepsExact(l, s, t);
    case DropReserved(t) => DropReservedKeepsExact(l, s, t);
    case Release(t) => ReleaseKeepsExact(l, s, t);
    case PushClose => PushBytes(s.queue, Close);
    case _ =>
  }

  /** The check is against the counter before the addition, which is at least what is charged. */
  lemma {:induction false} AddKeepsBudget(l: Limits, s: State, t: nat, frame: Unit, reserve: bool)
    requires Exact(s) && WithinBudget(l, s) && Enabled(l, s, Add(t, frame, reserve))
    ensures WithinBudget(l, Step(l, s, Add(t, frame, reserve)))
  {
    SetCharged(l, s.senders, t, Added(frame, s.counter, reserve));
    assert s.senders - {t} == s.senders;
    ChargedAtMostCounted(l, s.senders);
  }

  lemma {:induction false} EnqueueKeepsBudget(l: Limits, s: State, t: nat)
    requires WithinBudget(l, s) && Enabled(l, s, Attempt(t)) && Enqueues(l, s, t)
    ensures WithinBudget(l, Step(l, s, Attempt(t)))
  {
    SetCharged(l, s.senders, t, Releasing);
    PushBytes(s.queue, s.senders[t].frame);
  }

  lemma {:induction false} AttemptKeepsBudget(l: Limits, s: State, t: nat)
    requires WithinBudget(l, s) && Enabled(l, s, Attempt(t)) && !Enqueues(l, s, t)
    ensures WithinBudget(l, Step(l, s, Attempt(t)))
  {
    SetCharged(l, s.senders, t, Attempted(l, s, t));
  }

  lemma {:induction false} UndoKeepsBudget(l: Limits, s: State, t: nat)
    requires WithinBudget(l, s) && Enabled(l, s, Undo(t))
    ensures WithinBudget(l, Step(l, s, Undo(t)))
  {
    SetCharged(l, s.senders, t, Releasing);
  }

  lemma {:induction false} SendReservedKeepsBudget(l: Limits, s: State, t: nat)
    requires WithinBudget(l, s) && Enabled(l, s, SendReserved(t))
    ensures WithinBudget(l, Step(l, s, SendReserved(t)))
  {
    SetCharged(l, s.senders, t, Releasing);
    PushBytes(s.queue, s.senders[t].frame);
  }

  lemma {:induction false} DropReservedKeepsBudget(l: Limits, s: State, t: nat)
    requires WithinBudget(l, s) && Enabled(l, s, DropReserved(t))
    ensures WithinBudget(l, Step(l, s, DropReserved(t)))
  {
    SetCharged(l, s.senders, t, Releasing);
  }

  lemma {:induction false} ReleaseKeepsBudget(l: Limits, s: State, t: nat)
    requires WithinBudget(l, s) && Enabled(l, s, Release(t))
    ensures WithinBudget(l, Step(l, s, Release(t)))
  {
    SetCharged(l, s.senders, t, Releasing);
  }

  lemma {:induction false} StepKeepsBudget(l: Limits, s: State, e: Event)
    requires Exact(s) && WithinBudget(l, s) && Enabled(l, s, e)
    ensures WithinBudget(l, Step(l, s, e))
  {
    match e
    case Add(t, frame, reserve) => AddKeepsBudget(l, s, t, frame, reserve);
    case Attempt(t) => if Enqueues(l, s, t) { EnqueueKeepsBudget(l, s, t); } else { AttemptKeepsBudget(l, s, t); }
    case Undo(t) => UndoKeepsBudget(l, s, t);
    case SendReserved(t) => SendReservedKeepsBudget(l, s, t);
    case DropReserved(t) => DropReservedKeepsBudget(l, s, t);
    case Release(t) => ReleaseKeepsBudget(l, s, t);
    case PushClose => PushBytes(s.queue, Close);
    case _ =>
  }

  lemma {:induction false} HoldersOfSet(senders: map<nat, Sender>, t: nat, p: Sender)
    ensures SlotHolders(senders[t := p]) == if HoldsSlot(p) then SlotHolders(senders) + {t}
            else SlotHolders(senders) - {t}
    ensures SlotHolders(senders - {t}) == SlotHolders(senders) - {t}
  {
  }

  lemma {:induction false} AttemptKeepsSlots(l: Limits, s: State, t: nat)
    requires WithinSlots(l, s) && Enabled(l, s, Attempt(t))
    ensures WithinSlots(l, Step(l, s, Attempt(t)))
  {
    HoldersOfSet(s.senders, t, Attempted(l, s, t));
    assert t !in SlotHolders(s.senders);
  }

  lemma {:induction false} StepKeepsSlots(l: Limits, s: State, e: Event)
    requires WithinSlots(l, s) && Enabled(l, s, e)
    ensures WithinSlots(l, Step(l, s, e))
  {
    match e
    case Add(t, frame, reserve) => HoldersOfSet(s.senders, t, Added(frame, s.counter, reserve));
    case Attempt(t) => AttemptKeepsSlots(l, s, t);
    case Undo(t) => HoldersOfSet(s.senders, t, Releasing);
    case SendReserved(t) => HoldersOfSet(s.senders, t, Releasing); assert t in SlotHolders(s.senders);
    case DropReserved(t) => HoldersOfSet(s.senders, t, Releasing); assert t in SlotHolders(s.senders);
    case Release(t) => HoldersOfSet(s.senders, t, Releasing);
    case _ =>
  }

  lemma {:induction false} StepKeepsOrder(l: Limits, s: State, e: Event)
    requires Ordered(s) && Enabled(l, s, e)
    ensures Ordered(Step(l, s, e))
  {
  }

  lemma {:induction false} RunKeepsInv(l: Limits, s: State, events: seq<Event>)
    requires Inv(l, s) && Legal(l, s, events)
    ensures Inv(l, Run(l, s, events))
    decreases |events|
  {
    if events != [] {
      StepKeepsExact(l, s, events[0]);
      StepKeepsBudget(l, s, events[0]);
      StepKeepsSlots(l, s, events[0]);
      StepKeepsOrder(l, s, events[0]);
      RunKeepsInv(l, Step(l, s, events[0]), events[1..]);
    }
  }

  lemma {:induction false} EmptyIsExact(s: State)
    requires Init(s)
    ensures Exact(s) && Ordered(s)
  {
    assert CountedMap(s.senders) == map[];
  }

  lemma {:induction false} EmptyFits(l: Limits, s: State)
    requires Init(s)
    ensures WithinBudget(l, s) && WithinSlots(l, s)
  {
    assert ChargedMap(l, s.senders) == map[];
    assert SlotHolders(s.senders) == {};
  }

  lemma {:induction false} InitEstablishesInv(l: Limits, s: State)
    requires Init(s)
    ensures Inv(l, s)
  {
    EmptyIsExact(s);
    EmptyFits(l, s);
  }

  // ---- Theorems ----

  lemma {:induction false} SplitReserved(senders: map<nat, Sender>, t: nat)
    requires t in senders
    ensures Total(ReservedMap(senders))
            == Total(ReservedMap(senders - {t})) + if senders[t].Reserved? then Size(senders[t].frame) else 0
  {
    TotalUpdate(ReservedMap(senders), t, 0);
    assert ReservedMap(senders - {t}) == ReservedMap(senders) - {t};
  }

  lemma {:induction false} ReservedAtMostCharged(l: Limits, senders: map<nat, Sender>)
    ensures Total(ReservedMap(senders)) <= Total(ChargedMap(l, senders))
    decreases |senders|
  {
    if senders == map[] {
      assert ReservedMap(senders) == map[];
    } else {
      var t :| t in senders;
      SetCharged(l, senders, t, Releasing);
      SplitReserved(senders, t);
      ReservedAtMostCharged(l, senders - {t});
    }
  }

  ghost predicate Accounted(l: Limits, s: State)
  {
    Exact(s) && s.counter >= 0 && QueueBytes(s.queue) + Total(ReservedMap(s.senders)) <= l.maxBytes && WithinSlots(l, s)
  }

  lemma {:induction false} InvFacts(l: Limits, s: State)
    requires Inv(l, s)
    ensures Accounted(l, s)
  {
    ReservedAtMostCharged(l, s.senders);
  }

  /** No sender is between its accesses: what there are are reservations. */
  predicate Resting(s: State)
  {
    s.leaving.None? && forall t :: t in s.senders ==> s.senders[t].Reserved?
  }

  ghost predicate CounterIsUsage(s: State)
  {
    s.counter == QueueBytes(s.queue) + Total(ReservedMap(s.senders)) + s.lost
  }

  lemma {:induction false} AtRest(s: State)
    requires Exact(s) && Resting(s)
    ensures CounterIsUsage(s)
  {
    assert ReservedMap(s.senders) == CountedMap(s.senders);
  }

  lemma {:induction false} RunKeepsExact(l: Limits, s: State, events: seq<Event>)
    requires Exact(s) && Legal(l, s, events)
    ensures Exact(Run(l, s, events))
    decreases |events|
  {
    if events != [] {
      StepKeepsExact(l, s, events[0]);
      RunKeepsExact(l, Step(l, s, events[0]), events[1..]);
    }
  }

  lemma {:induction false} RunKeepsOrder(l: Limits, s: State, events: seq<Event>)
    requires Ordered(s) && Legal(l, s, events)
    ensures Ordered(Run(l, s, events))
    decreases |events|
  {
    if events != [] {
      StepKeepsOrder(l, s, events[0]);
      RunKeepsOrder(l, Step(l, s, events[0]), events[1..]);
    }
  }

  lemma {:induction false} Reachable(l: Limits, s: State, events: seq<Event>)
    requires Init(s) && Legal(l, s, events)
    ensures Inv(l, Run(l, s, events))
  {
    InitEstablishesInv(l, s);
    RunKeepsInv(l, s, events);
  }

  /** Under every interleaving: the counter is exactly the bytes queued, held by senders, leaving or
      left behind, so it never goes below zero; bytes queued and reserved never exceed the budget;
      frames queued and reserved never exceed the slots. */
  lemma {:induction false} Accounting(l: Limits, s: State, events: seq<Event>)
    requires Init(s) && Legal(l, s, events)
    ensures Accounted(l, Run(l, s, events))
  {
    Reachable(l, s, events);
    InvFacts(l, Run(l, s, events));
  }

  /** With no sender in between its accesses the counter is the queued and reserved bytes alone, and what a dropped
      receiver left behind. */
  lemma {:induction false} AtRestCounterIsUsage(l: Limits, s: State, events: seq<Event>)
    requires Init(s) && Legal(l, s, events) && Resting(Run(l, s, events))
    ensures CounterIsUsage(Run(l, s, events))
  {
    EmptyIsExact(s);
    RunKeepsExact(l, s, events);
    AtRest(Run(l, s, events));
  }

  /** What was received is the first part of what was enqueued. */
  predicate ReceivedPrefix(s: State)
  {
    s.received <= s.pushed
  }

  lemma {:induction false} OrderedPrefix(s: State)
    requires Ordered(s)
    ensures ReceivedPrefix(s)
  {
  }

  /** What the writer receives is a prefix of what was enqueued, in order; while it lives the rest is
      still queued. */
  lemma {:induction false} FirstInFirstOut(l: Limits, s: State, events: seq<Event>)
    requires Init(s) && Legal(l, s, events)
    ensures Ordered(Run(l, s, events)) && ReceivedPrefix(Run(l, s, events))
  {
    EmptyIsExact(s);
    RunKeepsOrder(l, s, events);
    OrderedPrefix(Run(l, s, events));
  }

  // ---- Calls that are not interrupted ----

  predicate Accepts(l: Limits, s: State, frame: Unit)
  {
    s.counter + Size(frame) <= l.maxBytes && SlotFree(l, s)
  }

  function TryEvents(l: Limits, s: State, t: nat, frame: Unit): (events: seq<Event>)
  {
    if Accepts(l, s, frame) then [Add(t, frame, false), Attempt(t)] else [Add(t, frame, false), Attempt(t), Undo(t)]
  }

  function ReserveEvents(l: Limits, s: State, t: nat, frame: Unit): (events: seq<Event>)
  {
    if Accepts(l, s, frame) then [Add(t, frame, true), Attempt(t)] else [Add(t, frame, true), Attempt(t), Undo(t)]
  }

  lemma {:induction false} Two(l: Limits, s: State, a: Event, b: Event)
    requires Enabled(l, s, a) && Enabled(l, Step(l, s, a), b)
    ensures Legal(l, s, [a, b]) && Run(l, s, [a, b]) == Step(l, Step(l, s, a), b)
  {
    assert [a, b][1..] == [b] && [b][1..] == [];
    assert Run(l, Step(l, s, a), [b]) == Step(l, Step(l, s, a), b);
  }

  lemma {:induction false} Three(l: Limits, s: State, a: Event, b: Event, c: Event)
    requires Enabled(l, s, a) && Enabled(l, Step(l, s, a), b) && Enabled(l, Step(l, Step(l, s, a), b), c)
    ensures Legal(l, s, [a, b, c]) && Run(l, s, [a, b, c]) == Step(l, Step(l, Step(l, s, a), b), c)
  {
    Two(l, Step(l, s, a), b, c);
    assert [a, b, c][1..] == [b, c];
  }

  lemma {:induction false} AddedSenders(senders: map<nat, Sender>, t: nat, p: Sender, q: Sender)
    requires t !in senders && !HoldsSlot(p)
    ensures SlotHolders(senders[t := p]) == SlotHolders(senders)
    ensures senders[t := p] - {t} == senders && senders[t := p][t := q] == senders[t := q]
  {
  }

  /** A lone `try_frame` enqueues the frame and counts its bytes, or leaves everything as it was. */
  lemma {:induction false} TryAlone(l: Limits, s: State, t: nat, frame: Unit)
    requires t !in s.senders && frame.Frame?
    ensures Legal(l, s, TryEvents(l, s, t, frame))
    ensures Run(l, s, TryEvents(l, s, t, frame))
            == if Accepts(l, s, frame) then Push(s, frame).(counter := s.counter + Size(frame)) else s
  {
    var a, p := Add(t, frame, false), Added(frame, s.counter, false);
    AddedSenders(s.senders, t, p, Attempted(l, Step(l, s, a), t));
    if Accepts(l, s, frame) {
      Two(l, s, a, Attempt(t));
    } else {
      Three(l, s, a, Attempt(t), Undo(t));
      AddedSenders(s.senders, t, Undoing(frame, Fits(l, p)), p);
    }
  }

  /** A lone `try_reserve_frame` holds bytes and a slot, or leaves everything as it was. */
  lemma {:induction false} ReserveAlone(l: Limits, s: State, t: nat, frame: Unit)
    requires t !in s.senders && frame.Frame?
    ensures Legal(l, s, ReserveEvents(l, s, t, frame))
    ensures Run(l, s, ReserveEvents(l, s, t, frame))
            == if Accepts(l, s, frame)
               then s.(counter := s.counter + Size(frame), senders := s.senders[t := Reserved(frame)])
               else s
  {
    var a, p := Add(t, frame, true), Added(frame, s.counter, true);
    AddedSenders(s.senders, t, p, Attempted(l, Step(l, s, a), t));
    if Accepts(l, s, frame) {
      Two(l, s, a, Attempt(t));
    } else {
      Three(l, s, a, Attempt(t), Undo(t));
      AddedSenders(s.senders, t, Undoing(frame, Fits(l, p)), p);
    }
  }

  /** `try_reserve_frame` in one go: whether it holds a reservation, and the outbox then. */
  function Reserve(l: Limits, s: State, t: nat, frame: Unit): (out: (State, bool))
    requires t !in s.senders && frame.Frame?
    ensures out.1 ==> t in out.0.senders && out.0.senders[t] == Reserved(frame)
  {
    var s2 := Step(l, Step(l, s, Add(t, frame, true)), Attempt(t));
    if s2.senders[t].Reserved? then (s2, true) else (Step(l, s2, Undo(t)), false)
  }

  /** Dropping an unsent reservation. */
  function GiveUp(l: Limits, s: State, t: nat): (s': State)
    requires t in s.senders && s.senders[t].Reserved?
  {
    Step(l, Step(l, s, DropReserved(t)), Release(t))
  }

  lemma {:induction false} ReserveIsAlone(l: Limits, s: State, t: nat, frame: Unit)
    requires t !in s.senders && frame.Frame?
    ensures var (s', ok) := Reserve(l, s, t, frame);
            && (ok <==> Accepts(l, s, frame))
            && s' == if ok then s.(counter := s.counter + Size(frame), senders := s.senders[t := Reserved(frame)])
                     else s
  {
    var p := Added(frame, s.counter, true);
    AddedSenders(s.senders, t, p, Attempted(l, Step(l, s, Add(t, frame, true)), t));
    AddedSenders(s.senders, t, Undoing(frame, Fits(l, p)), p);
  }

  /** A dropped reservation gives back exactly what it took. */
  lemma {:induction false} DropUndoesReserve(l: Limits, s: State, t: nat, frame: Unit)
    requires t !in s.senders && frame.Frame?
    ensures GiveUp(l, s.(counter := s.counter + Size(frame), senders := s.senders[t := Reserved(frame)]), t) == s
  {
  }

  /** Reserving and then sending is a successful `try_frame`. */
  lemma {:induction false} SendCompletesReserve(l: Limits, s: State, t: nat, frame: Unit)
    requires t !in s.senders && frame.Frame?
    ensures var held := s.(counter := s.counter + Size(frame), senders := s.senders[t := Reserved(frame)]);
            s.alive ==> Step(l, held, SendReserved(t)) == Push(s, frame).(counter := s.counter + Size(frame))
  {
  }

  // ---- What single steps do ----

  /** A sender's attempt enters the queue, or is granted a reservation, exactly when the bytes counted before it and its
      own fit the budget, the receiver is there, and queued frames and reservations leave a slot; otherwise it must
      undo. */
  lemma {:induction false} AttemptExactly(l: Limits, s: State, t: nat)
    requires t in s.senders && s.senders[t].Added? && s.senders[t].frame.Frame?
    ensures var p, s' := s.senders[t], Step(l, s, Attempt(t));
            var held := set u | u in s.senders && (s.senders[u].Reserved? || s.senders[u].Releasing?);
            var fits := p.before + p.frame.size <= l.maxBytes;
            var granted := fits && s.alive && |s.queue| + |held| < l.maxFrames;
            && (granted && !p.reserve ==>
                  s' == s.(queue := s.queue + [p.frame], pushed := s.pushed + [p.frame], senders := s.senders - {t}))
            && (granted && p.reserve ==> s' == s.(senders := s.senders[t := Reserved(p.frame)]))
            && (!granted ==> s' == s.(senders := s.senders[t := Undoing(p.frame, fits)]))
  {
    assert SlotHolders(s.senders) == set u | u in s.senders && (s.senders[u].Reserved? || s.senders[u].Releasing?);
  }

  /** A lone sender gets its frame in exactly when the counter and its bytes fit the budget and there is a slot; nothing
      else about the outbox changes, and a refused frame changes nothing at all. */
  lemma {:induction false} TryExactly(l: Limits, s: State, t: nat, frame: Unit)
    requires t !in s.senders && frame.Frame?
    ensures var held := set u | u in s.senders && (s.senders[u].Reserved? || s.senders[u].Releasing?);
            var accepted := s.counter + frame.size <= l.maxBytes && s.alive && |s.queue| + |held| < l.maxFrames;
            && Legal(l, s, TryEvents(l, s, t, frame))
            && Run(l, s, TryEvents(l, s, t, frame))
               == if accepted then s.(queue := s.queue + [frame], pushed := s.pushed + [frame],
                                      counter := s.counter + frame.size) else s
  {
    TryAlone(l, s, t, frame);
    assert SlotHolders(s.senders) == set u | u in s.senders && (s.senders[u].Reserved? || s.senders[u].Releasing?);
  }

  /** A close is never lost: it is queued behind what is there, or, without a slot, left for the receiver beside the
      queue. */
  lemma {:induction false} CloseExactly(l: Limits, s: State)
    ensures var held := set u | u in s.senders && (s.senders[u].Reserved? || s.senders[u].Releasing?);
            var s' := Step(l, s, PushClose);
            s' == if s.alive && |s.queue| + |held| < l.maxFrames
                  then s.(queue := s.queue + [Close], pushed := s.pushed + [Close]) else s.(force := true)
  {
    assert SlotHolders(s.senders) == set u | u in s.senders && (s.senders[u].Reserved? || s.senders[u].Releasing?);
  }

  /** Between two frames a receiver takes the oldest unit, of which a frame's bytes are then due, or a forced close,
      which it takes once, or goes away and leaves nothing queued. */
  lemma {:induction false} ReceiverExactly(l: Limits, s: State)
    ensures Enabled(l, s, Receive) <==> s.alive && s.leaving.None? && s.queue != []
    ensures Enabled(l, s, Receive) ==>
              Step(l, s, Receive) == s.(queue := s.queue[1..], received := s.received + [s.queue[0]],
                                        leaving := if s.queue[0].Frame? then Some(s.queue[0].size) else None)
    ensures Enabled(l, s, ReceiveForced) <==> s.alive && s.leaving.None? && s.force
    ensures Enabled(l, s, ReceiveForced) ==>
              Step(l, s, ReceiveForced) == s.(force := false)
              && !Enabled(l, Step(l, s, ReceiveForced), ReceiveForced)
    ensures Enabled(l, s, DropReceiver) <==> s.alive && s.leaving.None?
    ensures Enabled(l, s, DropReceiver) ==>
              Step(l, s, DropReceiver) == s.(alive := false, queue := [], lost := s.lost + QueueBytes(s.queue))
  {
  }

  /** A frame's bytes leave the counter with its receipt, a sender's with its undo or with dropping its reservation, and
      the bytes of whatever a departing receiver leaves behind never do. */
  lemma {:induction false} BytesReturned(l: Limits, s: State, e: Event)
    requires Enabled(l, s, e)
    ensures var back := s.counter - Step(l, s, e).counter;
            && (e.Add? ==> back + e.frame.size == 0)
            && (e.Undo? ==> back == Size(s.senders[e.t].frame))
            && (e.DropReserved? ==> back == Size(s.senders[e.t].frame))
            && (e.Subtract? ==> back == s.leaving.value)
            && (!e.Add? && !e.Undo? && !e.DropReserved? && !e.Subtract? ==> back == 0)
  {
  }

  /** The outbox as one caller at a time uses it; `slots` are the permits held by reservations. */
  class BoundedOutbox {
    const l: Limits
    var queue: seq<Unit>
    var counter: int
    var slots: nat
    var alive: bool
    var force: bool
    ghost var view: State

    ghost predicate Valid()
      reads this
    {
      && queue == view.queue && counter == view.counter && alive == view.alive && force == view.force
      && slots == |SlotHolders(view.senders)| && view.leaving.None?
    }

    /** Add, check, undo. */
    method TryFrame(frame: Unit, ghost t: nat) returns (ok: bool)
      requires Valid() && frame.Frame? && t !in view.senders
      modifies this
      ensures Valid() && (ok <==> Accepts(l, old(view), frame))
      ensures Legal(l, old(view), TryEvents(l, old(view), t, frame))
      ensures view == Run(l, old(view), TryEvents(l, old(view), t, frame))
    {
      TryAlone(l, view, t, frame);
      var previous := counter;
      counter := counter + Size(frame);
      if previous + Size(frame) > l.maxBytes {
        counter := counter - Size(frame);
        return false;
      }
      if !alive || |queue| + slots >= l.maxFrames {
        counter := counter - Size(frame);
        return false;
      }
      queue := queue + [frame];
      view := Push(view, frame).(counter := counter);
      return true;
    }

    method TryReserve(frame: Unit, ghost t: nat) returns (ok: bool)
      requires Valid() && frame.Frame? && t !in view.senders
      modifies this
      ensures Valid() && (ok <==> Accepts(l, old(view), frame))
      ensures Legal(l, old(view), ReserveEvents(l, old(view), t, frame))
      ensures view == Run(l, old(view), ReserveEvents(l, old(view), t, frame))
    {
      ReserveAlone(l, view, t, frame);
      var previous := counter;
      counter := counter + Size(frame);
      if previous + Size(frame) > l.maxBytes {
        counter := counter - Size(frame);
        return false;
      }
      if !alive || |queue| + slots >= l.maxFrames {
        counter := counter - Size(frame);
        return false;
      }
      slots := slots + 1;
      HoldersOfSet(view.senders, t, Reserved(frame));
      view := view.(counter := counter, senders := view.senders[t := Reserved(frame)]);
      return true;
    }

    /** Drop of an unsent reservation: bytes first, then the slot. */
    method DropReservation(frame: Unit, ghost t: nat)
      requires Valid() && t in view.senders && view.senders[t] == Reserved(frame)
      modifies this
      ensures Valid() && view == GiveUp(l, old(view), t)
    {
      HoldersOfSet(view.senders, t, Releasing);
      assert t in SlotHolders(view.senders) && view.senders[t := Releasing] - {t} == view.senders - {t};
      counter := counter - Size(frame);
      slots := slots - 1;
      view := GiveUp(l, view, t);
    }

    /** Sends what was reserved: the permit becomes the frame's place in the queue, and its bytes stay counted. */
    method SendReservation(frame: Unit, ghost t: nat)
      requires Valid() && t in view.senders && view.senders[t] == Reserved(frame)
      modifies this
      ensures Valid() && view == Step(l, old(view), SendReserved(t))
      ensures queue == old(queue) + (if old(alive) then [frame] else []) && counter == old(counter)
      ensures slots == old(slots) - 1
    {
      HoldersOfSet(view.senders, t, Releasing);
      assert t in SlotHolders(view.senders);
      slots := slots - 1;
      if alive {
        queue := queue + [frame];
      }
      view := Step(l, view, SendReserved(t));
    }

    /** Takes a pending forced close or the next unit, whichever the scheduler picks when both are
        ready, and releases the bytes of a frame. */
    method Receive(forced: bool) returns (u: Option<Unit>)
      requires Valid() && alive && (forced ==> force)
      modifies this
      ensures Valid()
      ensures forced ==> u == Some(Close) && view == Step(l, old(view), ReceiveForced)
      ensures !forced ==> (u.None? <==> old(queue) == []) && (u.None? ==> view == old(view))
      ensures !forced && u.Some? ==>
                && u.value == old(queue)[0]
                && view == if u.value.Frame? then Step(l, Step(l, old(view), Event.Receive), Subtract)
                           else Step(l, old(view), Event.Receive)
    {
      if forced {
        force := false;
        view := Step(l, view, ReceiveForced);
        return Some(Close);
      }
      if queue == [] {
        return None;
      }
      var item := queue[0];
      queue := queue[1..];
      view := Step(l, view, Event.Receive);
      if item.Frame? {
        counter := counter - item.size;
        view := Step(l, view, Subtract);
      }
      return Some(item);
    }
  }
}

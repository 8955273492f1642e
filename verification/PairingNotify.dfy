/** Telling both sides of a claim while others use the two outboxes. The relay reserves a place in the offerer's
    outbox, then in the claimer's, then sends both frames; between any two of its atomic accesses other senders and the
    two receivers may do anything. */
module PairingNotify {
  import opened Prelude
  import O = Outbox
  import P = PairingRelay

  /** The relay is sender `t` at both outboxes. */
  datatype Job = Job(limits: O.Limits, t: nat, toOfferer: O.Unit, toClaimer: O.Unit)

  /** How far the relay is; the last two are success and failure. */
  datatype Phase =
    | Start | AddedFirst | HeldFirst | AddedSecond | HeldBoth | SentFirst
    | UndoFirst | UndoSecond | DropFirst | ReleaseFirst
    | Sent | Failed

  /** `toldFirst` and `toldSecond` record whether the frame went into the queue. */
  datatype State = State(first: O.State, second: O.State, phase: Phase, toldFirst: bool, toldSecond: bool)

  datatype Event = Own | AtFirst(e: O.Event) | AtSecond(e: O.Event)

  /** What the relay does next, and at which outbox. */
  datatype Move = First(e: O.Event) | Second(e: O.Event)

  function Next(j: Job, p: Phase): (m: Option<Move>)
  {
    match p
    case Start => Some(First(O.Add(j.t, j.toOfferer, true)))
    case AddedFirst => Some(First(O.Attempt(j.t)))
    case HeldFirst => Some(Second(O.Add(j.t, j.toClaimer, true)))
    case AddedSecond => Some(Second(O.Attempt(j.t)))
    case HeldBoth => Some(First(O.SendReserved(j.t)))
    case SentFirst => Some(Second(O.SendReserved(j.t)))
    case UndoFirst => Some(First(O.Undo(j.t)))
    case UndoSecond => Some(Second(O.Undo(j.t)))
    case DropFirst => Some(First(O.DropReserved(j.t)))
    case ReleaseFirst => Some(First(O.Release(j.t)))
    case Sent => None
    case Failed => None
  }

  predicate Reserved(box: O.State, t: nat)
  {
    t in box.senders && box.senders[t].Reserved?
  }

  /** The phase after the move; `held` is whether an attempt got its reservation. */
  function After(p: Phase, held: bool): (p': Phase)
    requires !p.Sent? && !p.Failed?
  {
    match p
    case Start => AddedFirst
    case AddedFirst => if held then HeldFirst else UndoFirst
    case HeldFirst => AddedSecond
    case AddedSecond => if held then HeldBoth else UndoSecond
    case HeldBoth => SentFirst
    case SentFirst => Sent
    case UndoFirst => Failed
    case UndoSecond => DropFirst
    case DropFirst => ReleaseFirst
    case ReleaseFirst => Failed
  }

  /** A step of someone other than sender `t`. */
  predicate Others(e: O.Event, t: nat)
  {
    e.Add? || e.Attempt? || e.Undo? || e.SendReserved? || e.DropReserved? || e.Release? ==> e.t != t
  }

  predicate Enabled(j: Job, s: State, e: Event)
  {
    match e
    case AtFirst(x) => O.Enabled(j.limits, s.first, x) && Others(x, j.t)
    case AtSecond(x) => O.Enabled(j.limits, s.second, x) && Others(x, j.t)
    case Own =>
      match Next(j, s.phase)
      case None => false
      case Some(First(x)) => O.Enabled(j.limits, s.first, x)
      case Some(Second(x)) => O.Enabled(j.limits, s.second, x)
  }

  function OwnStep(j: Job, s: State): (s': State)
    requires Enabled(j, s, Own)
  {
    match Next(j, s.phase)
    case Some(First(x)) =>
      var box := O.Step(j.limits, s.first, x);
      s.(first := box, phase := After(s.phase, Reserved(box, j.t)),
         toldFirst := s.toldFirst || (x.SendReserved? && s.first.alive))
    case Some(Second(x)) =>
      var box := O.Step(j.limits, s.second, x);
      s.(second := box, phase := After(s.phase, Reserved(box, j.t)),
         toldSecond := s.toldSecond || (x.SendReserved? && s.second.alive))
  }

  function Step(j: Job, s: State, e: Event): (s': State)
    requires Enabled(j, s, e)
  {
    match e
    case AtFirst(x) => s.(first := O.Step(j.limits, s.first, x))
    case AtSecond(x) => s.(second := O.Step(j.limits, s.second, x))
    case Own => OwnStep(j, s)
  }

  predicate Legal(j: Job, s: State, events: seq<Event>)
    decreases |events|
  {
    events == [] || (Enabled(j, s, events[0]) && Legal(j, Step(j, s, events[0]), events[1..]))
  }

  function Run(j: Job, s: State, events: seq<Event>): (s': State)
    requires Legal(j, s, events)
    decreases |events|
  {
    if events == [] then s else Run(j, Step(j, s, events[0]), events[1..])
  }

  predicate Init(j: Job, s: State)
  {
    && j.t !in s.first.senders && j.t !in s.second.senders && j.toOfferer.Frame? && j.toClaimer.Frame?
    && s.phase.Start? && !s.toldFirst && !s.toldSecond
  }

  // ---- What the relay holds, phase by phase ----

  datatype Side = Absent | Adding | Holding | Undoing | Releasing

  function FirstSide(p: Phase): (side: Side)
  {
    match p
    case AddedFirst => Adding
    case UndoFirst => Undoing
    case ReleaseFirst => Releasing
    case HeldFirst => Holding
    case AddedSecond => Holding
    case HeldBoth => Holding
    case UndoSecond => Holding
    case DropFirst => Holding
    case _ => Absent
  }

  function SecondSide(p: Phase): (side: Side)
  {
    match p
    case AddedSecond => Adding
    case UndoSecond => Undoing
    case HeldBoth => Holding
    case SentFirst => Holding
    case _ => Absent
  }

  predicate SideOk(box: O.State, t: nat, frame: O.Unit, side: Side)
  {
    match side
    case Absent => t !in box.senders
    case Adding => t in box.senders && box.senders[t].Added? && box.senders[t].frame == frame && box.senders[t].reserve
    case Holding => t in box.senders && box.senders[t] == O.Reserved(frame)
    case Undoing => t in box.senders && box.senders[t].Undoing? && box.senders[t].frame == frame
    case Releasing => t in box.senders && box.senders[t] == O.Releasing
  }

  /** `lostFirst`: a receiver went away while the relay held its reservation; likewise `lostSecond`. */
  predicate Inv(j: Job, s: State, lostFirst: bool, lostSecond: bool)
  {
    && j.toOfferer.Frame? && j.toClaimer.Frame?
    && SideOk(s.first, j.t, j.toOfferer, FirstSide(s.phase)) && SideOk(s.second, j.t, j.toClaimer, SecondSide(s.phase))
    && (FirstSide(s.phase).Holding? ==> (s.first.alive <==> !lostFirst))
    && (SecondSide(s.phase).Holding? ==> (s.second.alive <==> !lostSecond))
    && (s.toldFirst <==> (s.phase.SentFirst? || s.phase.Sent?) && !lostFirst)
    && (s.toldSecond <==> s.phase.Sent? && !lostSecond)
    && (FirstSide(s.phase).Adding? || s.phase.Start? ==> !lostFirst)
    && (FirstSide(s.phase).Holding? && !SecondSide(s.phase).Holding? ==> !lostSecond)
    && (s.phase.Start? || s.phase.AddedFirst? ==> !lostSecond)
  }

  /** This step takes away a receiver whose outbox the relay has a reservation in. */
  predicate LosesFirst(s: State, e: Event)
  {
    e == AtFirst(O.DropReceiver) && FirstSide(s.phase).Holding?
  }

  predicate LosesSecond(s: State, e: Event)
  {
    e == AtSecond(O.DropReceiver) && SecondSide(s.phase).Holding?
  }

  lemma {:induction false} OthersKeepSide(l: O.Limits, box: O.State, e: O.Event, t: nat, frame: O.Unit, side: Side)
    requires SideOk(box, t, frame, side) && O.Enabled(l, box, e) && Others(e, t)
    ensures SideOk(O.Step(l, box, e), t, frame, side)
    ensures O.Step(l, box, e).alive <==> box.alive && !e.DropReceiver?
  {
  }

  lemma {:induction false} OthersKeepInv(j: Job, s: State, e: Event, lostFirst: bool, lostSecond: bool)
    requires Inv(j, s, lostFirst, lostSecond) && Enabled(j, s, e) && !e.Own?
    ensures Inv(j, Step(j, s, e), lostFirst || LosesFirst(s, e), lostSecond || LosesSecond(s, e))
  {
    if e.AtFirst? {
      OthersKeepSide(j.limits, s.first, e.e, j.t, j.toOfferer, FirstSide(s.phase));
    } else {
      OthersKeepSide(j.limits, s.second, e.e, j.t, j.toClaimer, SecondSide(s.phase));
    }
  }

  lemma {:induction false} OwnKeepsInv(j: Job, s: State, lostFirst: bool, lostSecond: bool)
    requires Inv(j, s, lostFirst, lostSecond) && Enabled(j, s, Own)
    ensures Inv(j, Step(j, s, Own), lostFirst, lostSecond)
  {
  }

  // ---- Theorems ----

  predicate LostFirstIn(j: Job, s: State, events: seq<Event>)
    requires Legal(j, s, events)
    decreases |events|
  {
    events != [] && (LosesFirst(s, events[0]) || LostFirstIn(j, Step(j, s, events[0]), events[1..]))
  }

  predicate LostSecondIn(j: Job, s: State, events: seq<Event>)
    requires Legal(j, s, events)
    decreases |events|
  {
    events != [] && (LosesSecond(s, events[0]) || LostSecondIn(j, Step(j, s, events[0]), events[1..]))
  }

  lemma {:induction false} RunKeepsInv(j: Job, s: State, events: seq<Event>, lostFirst: bool, lostSecond: bool)
    requires Inv(j, s, lostFirst, lostSecond) && Legal(j, s, events)
    ensures Inv(j, Run(j, s, events), lostFirst || LostFirstIn(j, s, events), lostSecond || LostSecondIn(j, s, events))
    decreases |events|
  {
    if events != [] {
      var e := events[0];
      if e.Own? {
        OwnKeepsInv(j, s, lostFirst, lostSecond);
      } else {
        OthersKeepInv(j, s, e, lostFirst, lostSecond);
      }
      RunKeepsInv(j, Step(j, s, e), events[1..], lostFirst || LosesFirst(s, e), lostSecond || LosesSecond(s, e));
    }
  }

  /** However others use the two outboxes: until it is done the relay's next access is possible, so nobody can take a
      reservation away; when it fails neither side was told and nothing of it is left in either outbox; when it
      succeeds each side was told exactly unless its receiver went away between reservation and sending. */
  lemma {:induction false} ToldExactly(j: Job, s: State, events: seq<Event>)
    requires Init(j, s) && Legal(j, s, events)
    ensures var s' := Run(j, s, events);
            && (!s'.phase.Sent? && !s'.phase.Failed? ==> Enabled(j, s', Own))
            && (s'.phase.Failed? ==> !s'.toldFirst && !s'.toldSecond)
            && (s'.phase.Sent? ==>
                  && (s'.toldFirst <==> !LostFirstIn(j, s, events))
                  && (s'.toldSecond <==> !LostSecondIn(j, s, events)))
            && (s'.phase.Failed? || s'.phase.Sent? ==> j.t !in s'.first.senders && j.t !in s'.second.senders)
  {
    RunKeepsInv(j, s, events, false, false);
  }

  /** Being told is the frame entering the queue; no other step of the relay enters anything. */
  lemma {:induction false} TellingPushes(j: Job, s: State, lostFirst: bool, lostSecond: bool)
    requires Inv(j, s, lostFirst, lostSecond) && Enabled(j, s, Own)
    ensures var s' := Step(j, s, Own);
            && s'.first.pushed == s.first.pushed + (if s'.toldFirst && !s.toldFirst then [j.toOfferer] else [])
            && s'.second.pushed == s.second.pushed + (if s'.toldSecond && !s.toldSecond then [j.toClaimer] else [])
  {
  }

  lemma {:induction false} BoxStep(l: O.Limits, box: O.State, e: O.Event)
    requires O.Inv(l, box) && O.Enabled(l, box, e)
    ensures O.Inv(l, O.Step(l, box, e))
  {
    O.RunKeepsInv(l, box, [e]);
    assert O.Run(l, box, [e]) == O.Step(l, box, e) by {
      assert [e][1..] == [];
    }
  }

  /** Both outboxes stay exactly accounted and within their limits throughout. */
  lemma {:induction false} BothAccounted(j: Job, s: State, events: seq<Event>)
    requires O.Inv(j.limits, s.first) && O.Inv(j.limits, s.second) && Legal(j, s, events)
    ensures var s' := Run(j, s, events); O.Accounted(j.limits, s'.first) && O.Accounted(j.limits, s'.second)
    decreases |events|
  {
    if events == [] {
      O.InvFacts(j.limits, s.first);
      O.InvFacts(j.limits, s.second);
    } else {
      match events[0] {
        case AtFirst(x) => BoxStep(j.limits, s.first, x);
        case AtSecond(x) => BoxStep(j.limits, s.second, x);
        case Own =>
          match Next(j, s.phase) {
            case Some(First(x)) => BoxStep(j.limits, s.first, x);
            case Some(Second(x)) => BoxStep(j.limits, s.second, x);
          }
      }
      BothAccounted(j, Step(j, s, events[0]), events[1..]);
    }
  }

  // ---- The relay undisturbed ----

  lemma {:induction false} HoldsFirst(j: Job, s: State)
    requires Init(j, s) && O.Accepts(j.limits, s.first, j.toOfferer)
    ensures Enabled(j, s, Own) && Enabled(j, Step(j, s, Own), Own)
    ensures Step(j, Step(j, s, Own), Own)
            == s.(first := O.Reserve(j.limits, s.first, j.t, j.toOfferer).0, phase := HeldFirst)
  {
    O.ReserveIsAlone(j.limits, s.first, j.t, j.toOfferer);
  }

  lemma {:induction false} HoldsSecond(j: Job, s: State)
    requires s.phase.HeldFirst? && j.t !in s.second.senders && j.toClaimer.Frame?
    requires O.Accepts(j.limits, s.second, j.toClaimer)
    ensures Enabled(j, s, Own) && Enabled(j, Step(j, s, Own), Own)
    ensures Step(j, Step(j, s, Own), Own)
            == s.(second := O.Reserve(j.limits, s.second, j.t, j.toClaimer).0, phase := HeldBoth)
  {
    O.ReserveIsAlone(j.limits, s.second, j.t, j.toClaimer);
  }

  lemma {:induction false} RefusedFirst(j: Job, s: State)
    requires Init(j, s) && !O.Accepts(j.limits, s.first, j.toOfferer)
    ensures Enabled(j, s, Own) && Enabled(j, Step(j, s, Own), Own)
    ensures var s2 := Step(j, Step(j, s, Own), Own);
            Enabled(j, s2, Own) && Step(j, s2, Own) == s.(phase := Failed)
  {
    O.ReserveIsAlone(j.limits, s.first, j.t, j.toOfferer);
  }

  lemma {:induction false} RefusedSecond(j: Job, s: State)
    requires s.phase.HeldFirst? && j.t !in s.second.senders && j.toClaimer.Frame?
    requires !O.Accepts(j.limits, s.second, j.toClaimer)
    ensures Enabled(j, s, Own) && Enabled(j, Step(j, s, Own), Own)
    ensures var s2 := Step(j, Step(j, s, Own), Own);
            Enabled(j, s2, Own) && Step(j, s2, Own) == s.(phase := DropFirst)
  {
    O.ReserveIsAlone(j.limits, s.second, j.t, j.toClaimer);
  }

  lemma {:induction false} TwoFirst(j: Job, s: State, rest: seq<Event>)
    requires Enabled(j, s, Own) && Enabled(j, Step(j, s, Own), Own) && Legal(j, Step(j, Step(j, s, Own), Own), rest)
    ensures Legal(j, s, [Own, Own] + rest)
    ensures Run(j, s, [Own, Own] + rest) == Run(j, Step(j, Step(j, s, Own), Own), rest)
  {
    assert ([Own, Own] + rest)[1..] == [Own] + rest && ([Own] + rest)[1..] == rest;
    assert Legal(j, Step(j, s, Own), [Own] + rest);
  }

  lemma {:induction false} OneFirst(j: Job, s: State, rest: seq<Event>)
    requires Enabled(j, s, Own) && Legal(j, Step(j, s, Own), rest)
    ensures Legal(j, s, [Own] + rest) && Run(j, s, [Own] + rest) == Run(j, Step(j, s, Own), rest)
  {
    assert ([Own] + rest)[1..] == rest;
  }

  /** The relay's accesses when nobody else is about, up to success or failure. */
  function OwnEvents(j: Job, s: State): (events: seq<Event>)
  {
    if !O.Accepts(j.limits, s.first, j.toOfferer) then [Own, Own] + ([Own] + [])
    else if !O.Accepts(j.limits, s.second, j.toClaimer) then [Own, Own] + ([Own, Own] + ([Own] + ([Own, Own] + [])))
    else [Own, Own] + ([Own, Own] + ([Own, Own] + []))
  }

  lemma {:induction false} UndisturbedSend(j: Job, s: State)
    requires s.phase.HeldBoth? && Reserved(s.first, j.t) && Reserved(s.second, j.t)
    ensures Enabled(j, s, Own) && Enabled(j, Step(j, s, Own), Own)
    ensures var s' := Step(j, Step(j, s, Own), Own);
            && s'.first == O.Step(j.limits, s.first, O.SendReserved(j.t))
            && s'.second == O.Step(j.limits, s.second, O.SendReserved(j.t)) && s'.phase.Sent?
  {
  }

  lemma {:induction false} UndisturbedDrop(j: Job, s: State)
    requires s.phase.DropFirst? && Reserved(s.first, j.t)
    ensures Enabled(j, s, Own) && Enabled(j, Step(j, s, Own), Own)
    ensures Step(j, Step(j, s, Own), Own) == s.(first := O.GiveUp(j.limits, s.first, j.t), phase := Failed)
  {
  }

  lemma {:induction false} UndisturbedSuccess(j: Job, s: State)
    requires Init(j, s)
    requires O.Accepts(j.limits, s.first, j.toOfferer) && O.Accepts(j.limits, s.second, j.toClaimer)
    ensures Legal(j, s, OwnEvents(j, s))
    ensures var s' := Run(j, s, OwnEvents(j, s));
            var (boxA, okA) := O.Reserve(j.limits, s.first, j.t, j.toOfferer);
            var (boxB, okB) := O.Reserve(j.limits, s.second, j.t, j.toClaimer);
            && okA && okB && s'.phase.Sent? && s'.first == O.Step(j.limits, boxA, O.SendReserved(j.t))
            && s'.second == O.Step(j.limits, boxB, O.SendReserved(j.t))
  {
    O.ReserveIsAlone(j.limits, s.first, j.t, j.toOfferer);
    O.ReserveIsAlone(j.limits, s.second, j.t, j.toClaimer);
    HoldsFirst(j, s);
    var s2 := Step(j, Step(j, s, Own), Own);
    HoldsSecond(j, s2);
    var s4 := Step(j, Step(j, s2, Own), Own);
    UndisturbedSend(j, s4);
    TwoFirst(j, s4, []);
    TwoFirst(j, s2, [Own, Own] + []);
    TwoFirst(j, s, [Own, Own] + ([Own, Own] + []));
  }

  lemma {:induction false} UndisturbedRefusal(j: Job, s: State)
    requires Init(j, s)
    requires O.Accepts(j.limits, s.first, j.toOfferer) && !O.Accepts(j.limits, s.second, j.toClaimer)
    ensures Legal(j, s, OwnEvents(j, s))
    ensures var s' := Run(j, s, OwnEvents(j, s));
            var (boxA, okA) := O.Reserve(j.limits, s.first, j.t, j.toOfferer);
            && okA && s'.phase.Failed? && s'.first == O.GiveUp(j.limits, boxA, j.t) && s'.second == s.second
  {
    O.ReserveIsAlone(j.limits, s.first, j.t, j.toOfferer);
    HoldsFirst(j, s);
    var s2 := Step(j, Step(j, s, Own), Own);
    RefusedSecond(j, s2);
    var s4 := Step(j, Step(j, s2, Own), Own);
    var s5 := Step(j, s4, Own);
    UndisturbedDrop(j, s5);
    TwoFirst(j, s5, []);
    OneFirst(j, s4, [Own, Own] + []);
    TwoFirst(j, s2, [Own] + ([Own, Own] + []));
    TwoFirst(j, s, [Own, Own] + ([Own] + ([Own, Own] + [])));
  }

  /** Undisturbed, the relay's accesses are a legal run to success or failure, with the answer and the outboxes of the
      claim's notification. */
  lemma {:induction false} UndisturbedIsNotifyBoth(cfg: P.Config, boxes: map<P.ConnId, O.State>, a: P.ConnId,
                                                   b: P.ConnId, ctx: P.Context)
    requires a in boxes && b in boxes && a != b && ctx.frame.Frame? && ctx.other.Frame?
    requires ctx.t !in boxes[a].senders && ctx.t !in boxes[b].senders
    ensures var j, s := Job(cfg.box, ctx.t, ctx.frame, ctx.other), State(boxes[a], boxes[b], Start, false, false);
            && Legal(j, s, OwnEvents(j, s))
            && var s', (boxes', sent) := Run(j, s, OwnEvents(j, s)), P.NotifyBoth(cfg, boxes, a, b, ctx);
            && boxes' == boxes[a := s'.first][b := s'.second] && (s'.phase.Sent? || s'.phase.Failed?)
            && (s'.phase.Sent? <==> sent)
  {
    var j, s := Job(cfg.box, ctx.t, ctx.frame, ctx.other), State(boxes[a], boxes[b], Start, false, false);
    O.ReserveIsAlone(cfg.box, boxes[a], ctx.t, ctx.frame);
    O.ReserveIsAlone(cfg.box, boxes[b], ctx.t, ctx.other);
    if !O.Accepts(cfg.box, boxes[a], ctx.frame) {
      RefusedFirst(j, s);
      OneFirst(j, Step(j, Step(j, s, Own), Own), []);
      TwoFirst(j, s, [Own] + []);
      assert boxes[a := boxes[a]][b := boxes[b]] == boxes == boxes[a := boxes[a]];
    } else if !O.Accepts(cfg.box, boxes[b], ctx.other) {
      UndisturbedRefusal(j, s);
    } else {
      UndisturbedSuccess(j, s);
    }
  }

  // ---- A success that told one side only ----

  lemma {:induction false} SendsToOneOnly(j: Job, s: State)
    requires s.phase.HeldBoth? && s.first.alive && s.first.leaving.None? && s.second.alive
    requires Reserved(s.first, j.t) && Reserved(s.second, j.t) && !s.toldFirst
    ensures var dropped := AtFirst(O.DropReceiver);
            && Legal(j, s, [dropped, Own, Own])
            && var s' := Run(j, s, [dropped, Own, Own]); s'.phase.Sent? && !s'.toldFirst && s'.toldSecond
  {
    var dropped := AtFirst(O.DropReceiver);
    assert [dropped, Own, Own][1..] == [Own, Own] && [Own, Own][1..] == [Own] && [Own][1..] == [];
    var s1 := Step(j, s, dropped);
    var s2 := Step(j, s1, Own);
    assert Legal(j, s2, [Own]) && Run(j, s2, [Own]) == Step(j, s2, Own);
    assert Legal(j, s1, [Own, Own]) && Run(j, s1, [Own, Own]) == Step(j, s2, Own);
  }

  /** From any two outboxes with space: the offerer's receiver goes away between reservation and sending, the claim
      succeeds, and only the claimer is told. */
  lemma {:induction false} SuccessMayTellOneOnly(j: Job, s: State)
    requires Init(j, s) && s.first.leaving.None?
    requires O.Accepts(j.limits, s.first, j.toOfferer) && O.Accepts(j.limits, s.second, j.toClaimer)
    ensures var events := [Own, Own] + ([Own, Own] + [AtFirst(O.DropReceiver), Own, Own]);
            && Legal(j, s, events)
            && var s' := Run(j, s, events); s'.phase.Sent? && !s'.toldFirst && s'.toldSecond
  {
    var last := [AtFirst(O.DropReceiver), Own, Own];
    O.ReserveIsAlone(j.limits, s.first, j.t, j.toOfferer);
    O.ReserveIsAlone(j.limits, s.second, j.t, j.toClaimer);
    HoldsFirst(j, s);
    var s2 := Step(j, Step(j, s, Own), Own);
    HoldsSecond(j, s2);
    var s4 := Step(j, Step(j, s2, Own), Own);
    SendsToOneOnly(j, s4);
    TwoFirst(j, s2, last);
    TwoFirst(j, s, [Own, Own] + last);
  }
}

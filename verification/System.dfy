/** Two paired devices and the network between them. A step is one operation on one device with any
    combination of file failures and any stopping point, a crash, or a restart. The network may
    drop, repeat, reorder and relabel what the devices sealed, and may inject anything it can seal
    itself, but cannot seal under the session keys. */
module System {
  import opened Prelude
  import opened Session
  import opened SessionInvariant
  import H = History
  import C = Crypto

  datatype Node = Node(cfg: Config, ep: Endpoint)

  datatype System = System(nodes: seq<Node>, minted: Minted)

  datatype Event =
    | Sending(i: nat, content: H.Content, ts: int, id: H.Id, send: SendEnv)
    | Receiving(i: nat, frame: Frame, mailbox: bool, now: int, recv: RecvEnv)
    | Starting(i: nat, start: StartEnv)
    | Applying(i: nat, id: H.Id, persist: H.Write)
    | Clearing(i: nat, persist: H.Write, stuck: set<H.FileName>)
    | Crashing(i: nat)

  predicate Paired(a: Config, b: Config)
  {
    && ValidConfig(a) && ValidConfig(b)
    && a.room == b.room && a.selfFp == b.peerFp && a.peerFp == b.selfFp
    && a.keys.send == b.keys.recv && a.keys.recv == b.keys.send
  }

  /** Devices that derived their keys from each other's bundles are paired. */
  lemma {:induction false} DerivedKeysPair(suite: C.Suite, a: C.Identity, b: C.Identity, ca: Config, cb: Config)
    requires C.Sound(suite)
    requires var x, y := C.PublicBundle(suite, a), C.PublicBundle(suite, b);
             && C.SessionKeys(suite, a, y) == Some(ca.keys) && C.SessionKeys(suite, b, x) == Some(cb.keys)
             && ca.room == C.RoomId(suite, x, y) && cb.room == C.RoomId(suite, y, x)
             && ca.selfFp == cb.peerFp == C.Fingerprint(suite, x)
             && cb.selfFp == ca.peerFp == C.Fingerprint(suite, y)
    ensures Paired(ca, cb)
  {
    var x, y := C.PublicBundle(suite, a), C.PublicBundle(suite, b);
    C.SessionKeysAgree(suite, a, b);
    C.RoomAndSasSymmetric(suite, [], x, y);
    C.HexRoundTrip(suite.hash(C.BundleBytes(x)));
    C.HexRoundTrip(suite.hash(C.BundleBytes(y)));
    var digest := suite.hash(C.PairBytes(x, y));
    C.HexRoundTrip(if |digest| >= 16 then digest[..16] else digest);
    assert !C.IsLowerHex(58) && !C.IsLowerHex(0);
  }

  /** Sealing under a session key is something only the two devices can do. */
  ghost predicate Deliverable(sys: System, frame: Frame)
  {
    frame.sealed.Some? ==>
      (exists j :: 0 <= j < |sys.nodes| && (frame.sealed.value.key == sys.nodes[j].cfg.keys.send
                                            || frame.sealed.value.key == sys.nodes[j].cfg.keys.recv)) ==>
        exists j, e :: 0 <= j < |sys.nodes| && e in sys.nodes[j].ep.emitted
                       && frame.sealed == Seal(sys.nodes[j].cfg, e).sealed
  }

  ghost predicate Enabled(sys: System, e: Event)
  {
    && e.i < |sys.nodes|
    && var n := sys.nodes[e.i];
       match e
       case Sending(_, _, _, id, _) => Live(n.ep) && id !in sys.minted
       case Receiving(_, frame, _, _, _) => Live(n.ep) && Deliverable(sys, frame)
       case Starting(_, env) => n.ep.mem.None? && |env.adds| >= |RecvOnDisk(n.cfg, n.ep).pending|
       case Crashing(_) => true
       case _ => Live(n.ep)
  }

  function Act(n: Node, e: Event): (ep: Endpoint)
    requires !e.Starting? && !e.Crashing? ==> Live(n.ep)
    requires e.Starting? ==> |e.start.adds| >= |RecvOnDisk(n.cfg, n.ep).pending|
  {
    match e
    case Sending(_, content, ts, id, env) => Send(n.cfg, n.ep, content, ts, id, env).ep
    case Receiving(_, frame, mailbox, now, env) => Receive(n.cfg, n.ep, frame, mailbox, now, env).ep
    case Starting(_, env) => Start(n.cfg, n.ep, env).ep
    case Applying(_, id, persist) => ApplyDeferred(n.ep, id, persist).ep
    case Clearing(_, persist, stuck) => ClearHistory(n.ep, persist, stuck).ep
    case Crashing(_) => Down(n.ep)
  }

  predicate SameConfigs(sys: System, sys': System)
  {
    |sys'.nodes| == |sys.nodes| && forall i :: 0 <= i < |sys.nodes| ==> sys'.nodes[i].cfg == sys.nodes[i].cfg
  }

  ghost function Step(sys: System, e: Event): (sys': System)
    requires Enabled(sys, e)
    ensures SameConfigs(sys, sys')
  {
    System(sys.nodes[e.i := sys.nodes[e.i].(ep := Act(sys.nodes[e.i], e))],
           if e.Sending? then sys.minted[e.id := Mint(e.ts, e.content)] else sys.minted)
  }

  ghost predicate Legal(sys: System, events: seq<Event>)
    decreases |events|
  {
    events == [] || (Enabled(sys, events[0]) && Legal(Step(sys, events[0]), events[1..]))
  }

  ghost function Run(sys: System, events: seq<Event>): (sys': System)
    requires Legal(sys, events)
    ensures SameConfigs(sys, sys')
    decreases |events|
  {
    if events == [] then sys else Run(Step(sys, events[0]), events[1..])
  }

  /** A device before its first session: nothing sent, received or running. The document may hold
      other rooms and older identity generations, the directory any consistent history. */
  ghost predicate FreshNode(n: Node, minted: Minted)
  {
    && n.ep.mem.None? && n.ep.hist.items.None? && H.Inv(n.ep.hist)
    && n.ep.emitted == [] && n.ep.fired == [] && n.ep.acceptedOnDisk == []
    && SendOnDisk(n.cfg, n.ep) == NewDirection(n.cfg.generation)
    && RecvOnDisk(n.cfg, n.ep) == NewDirection(n.cfg.generation)
    && KnownInv(n.cfg, n.ep, minted)
  }

  ghost predicate Init(sys: System)
  {
    && |sys.nodes| == 2 && Paired(sys.nodes[0].cfg, sys.nodes[1].cfg)
    && FreshNode(sys.nodes[0], sys.minted) && FreshNode(sys.nodes[1], sys.minted)
  }

  predicate DistinctIds(s: seq<ClipItem>)
  {
    forall i, j :: 0 <= i < j < |s| ==> s[i].id != s[j].id
  }

  ghost predicate NodeInv(n: Node, peer: Node, minted: Minted)
  {
    && Inv(n.cfg, n.ep, minted)
    && DistinctIds(n.ep.emitted)
    && (forall a :: a in n.ep.acceptedOnDisk ==> a in peer.ep.emitted)
  }

  ghost predicate SysInv(sys: System)
  {
    && |sys.nodes| == 2 && Paired(sys.nodes[0].cfg, sys.nodes[1].cfg)
    && NodeInv(sys.nodes[0], sys.nodes[1], sys.minted)
    && NodeInv(sys.nodes[1], sys.nodes[0], sys.minted)
  }

  /** Whatever opens on one device was sealed by the other one: not reflected, not forged. */
  lemma {:induction false} OpensOnlyFromPeer(sys: System, i: nat, frame: Frame)
    requires |sys.nodes| == 2 && Paired(sys.nodes[0].cfg, sys.nodes[1].cfg) && i < 2 && Deliverable(sys, frame)
    requires Authenticate(sys.nodes[i].cfg, frame).Some?
    ensures Authenticate(sys.nodes[i].cfg, frame).value in sys.nodes[1 - i].ep.emitted
  {
    var cfg := sys.nodes[i].cfg;
    assert frame.sealed.value.key == sys.nodes[i].cfg.keys.recv;
    var j, e :| 0 <= j < |sys.nodes| && e in sys.nodes[j].ep.emitted
                && frame.sealed == Seal(sys.nodes[j].cfg, e).sealed;
    if j == i {
      C.JoinedInjective(cfg.room, cfg.selfFp, cfg.peerFp, cfg.room, cfg.peerFp, cfg.selfFp, 0);
    }
  }

  /** What an operation can do to the three logs. */
  lemma {:induction false} LogEffects(n: Node, e: Event, minted: Minted)
    requires !e.Starting? && !e.Crashing? ==> Live(n.ep)
    requires e.Starting? ==> |e.start.adds| >= |RecvOnDisk(n.cfg, n.ep).pending|
    requires Inv(n.cfg, n.ep, minted)
    ensures var ep' := Act(n, e);
            && (ep'.emitted == n.ep.emitted
                || (e.Sending? && exists k :: ep'.emitted == n.ep.emitted + [ClipItem(e.id, e.ts, k, e.content)]))
            && (forall a :: a in ep'.acceptedOnDisk ==>
                  a in n.ep.acceptedOnDisk || (e.Receiving? && Authenticate(n.cfg, e.frame) == Some(a)))
  {
  }

  lemma {:induction false} ActKeepsInv(n: Node, e: Event, minted: Minted)
    requires !e.Starting? && !e.Crashing? ==> Live(n.ep)
    requires e.Starting? ==> n.ep.mem.None? && |e.start.adds| >= |RecvOnDisk(n.cfg, n.ep).pending|
    requires ValidConfig(n.cfg) && Inv(n.cfg, n.ep, minted)
    requires e.Sending? ==> Known(minted, e.id, e.ts, e.content)
    requires e.Receiving? && Authenticate(n.cfg, e.frame).Some? ==>
             KnownClip(minted, Authenticate(n.cfg, e.frame).value)
    ensures Inv(n.cfg, Act(n, e), minted)
  {
    match e
    case Sending(_, content, ts, id, env) => SendKeepsInv(n.cfg, n.ep, content, ts, id, env, minted);
    case Receiving(_, frame, mailbox, now, env) => ReceiveKeepsInv(n.cfg, n.ep, frame, mailbox, now, env, minted);
    case Starting(_, env) => StartKeepsInv(n.cfg, n.ep, env, minted);
    case Applying(_, id, persist) => ApplyKeepsInv(n.cfg, n.ep, id, persist, minted);
    case Clearing(_, persist, stuck) => ClearAllKeepsInv(n.cfg, n.ep, persist, stuck, minted);
    case Crashing(_) => DownKeepsInv(n.cfg, n.ep, minted);
  }

  lemma {:induction false} ActorKeepsNodeInv(n: Node, peer: Node, e: Event, minted: Minted)
    requires !e.Starting? && !e.Crashing? ==> Live(n.ep)
    requires e.Starting? ==> n.ep.mem.None? && |e.start.adds| >= |RecvOnDisk(n.cfg, n.ep).pending|
    requires ValidConfig(n.cfg) && NodeInv(n, peer, minted)
    requires e.Sending? ==> Known(minted, e.id, e.ts, e.content) && forall a :: a in n.ep.emitted ==> a.id != e.id
    requires e.Receiving? && Authenticate(n.cfg, e.frame).Some? ==>
               Authenticate(n.cfg, e.frame).value in peer.ep.emitted
                 && KnownClip(minted, Authenticate(n.cfg, e.frame).value)
    ensures NodeInv(n.(ep := Act(n, e)), peer, minted)
  {
    ActKeepsInv(n, e, minted);
    LogEffects(n, e, minted);
  }

  lemma {:induction false} PeerKeepsNodeInv(n: Node, peer: Node, e: Event, minted: Minted)
    requires !e.Starting? && !e.Crashing? ==> Live(peer.ep)
    requires e.Starting? ==> |e.start.adds| >= |RecvOnDisk(peer.cfg, peer.ep).pending|
    requires Inv(peer.cfg, peer.ep, minted) && NodeInv(n, peer, minted)
    ensures NodeInv(n, peer.(ep := Act(peer, e)), minted)
  {
  }

  lemma {:induction false} MintKeepsNodeInv(n: Node, peer: Node, minted: Minted, id: H.Id, mint: Mint)
    requires NodeInv(n, peer, minted) && id !in minted
    ensures NodeInv(n, peer, minted[id := mint])
    ensures forall a :: a in n.ep.emitted ==> a.id != id
  {
  }

  lemma {:induction false} StepKeepsInv(sys: System, e: Event)
    requires SysInv(sys) && Enabled(sys, e)
    ensures SysInv(Step(sys, e))
  {
    if e.Receiving? && Authenticate(sys.nodes[e.i].cfg, e.frame).Some? {
      OpensOnlyFromPeer(sys, e.i, e.frame);
    }
    PairStep(sys.nodes[e.i], sys.nodes[1 - e.i], e, sys.minted, Step(sys, e).minted);
  }

  lemma {:induction false} PairStep(n: Node, peer: Node, e: Event, minted: Minted, minted': Minted)
    requires !e.Starting? && !e.Crashing? ==> Live(n.ep)
    requires e.Starting? ==> n.ep.mem.None? && |e.start.adds| >= |RecvOnDisk(n.cfg, n.ep).pending|
    requires ValidConfig(n.cfg) && NodeInv(n, peer, minted) && NodeInv(peer, n, minted)
    requires if e.Sending? then e.id !in minted && minted' == minted[e.id := Mint(e.ts, e.content)]
             else minted' == minted
    requires e.Receiving? && Authenticate(n.cfg, e.frame).Some? ==>
             Authenticate(n.cfg, e.frame).value in peer.ep.emitted
    ensures NodeInv(n.(ep := Act(n, e)), peer, minted') && NodeInv(peer, n.(ep := Act(n, e)), minted')
  {
    if e.Sending? {
      MintKeepsNodeInv(n, peer, minted, e.id, Mint(e.ts, e.content));
      MintKeepsNodeInv(peer, n, minted, e.id, Mint(e.ts, e.content));
    }
    ActorKeepsNodeInv(n, peer, e, minted');
    PeerKeepsNodeInv(peer, n, e, minted');
  }

  lemma {:induction false} RunKeepsInv(sys: System, events: seq<Event>)
    requires SysInv(sys) && Legal(sys, events)
    ensures SysInv(Run(sys, events))
    decreases |events|
  {
    if events != [] {
      StepKeepsInv(sys, events[0]);
      RunKeepsInv(Step(sys, events[0]), events[1..]);
    }
  }

  lemma {:induction false} InitEstablishesInv(sys: System)
    requires Init(sys)
    ensures SysInv(sys)
  {
  }

  // ---- Theorems over every run ----

  /** Delivery: over every interleaving of sends, receives, failures, crashes and restarts on both
      sides, the clips handed to a device's clipboard callback are a strictly increasing
      subsequence of those its peer emitted; no clip fires twice. */
  lemma {:induction false} EndToEnd(sys: System, events: seq<Event>, i: nat)
    requires Init(sys) && Legal(sys, events) && i < 2
    ensures var fired := Run(sys, events).nodes[i].ep.fired;
            && Ascending(fired)
            && Subseq(fired, Run(sys, events).nodes[1 - i].ep.emitted)
            && (forall k, l :: 0 <= k < l < |fired| ==> fired[k].id != fired[l].id)
  {
    InitEstablishesInv(sys);
    RunKeepsInv(sys, events);
    var sys' := Run(sys, events);
    FiredFacts(sys'.nodes[i], sys'.nodes[1 - i], sys'.minted);
  }

  lemma {:induction false} FiredFacts(n: Node, peer: Node, minted: Minted)
    requires NodeInv(n, peer, minted) && NodeInv(peer, n, minted)
    ensures Ascending(n.ep.fired) && Subseq(n.ep.fired, peer.ep.emitted)
    ensures forall k, l :: 0 <= k < l < |n.ep.fired| ==> n.ep.fired[k].id != n.ep.fired[l].id
  {
    var fired, emitted := n.ep.fired, peer.ep.emitted;
    SortedMembersAreSubseq(fired, emitted, (c: ClipItem) => c.seqNo);
    forall k, l | 0 <= k < l < |fired|
      ensures fired[k].id != fired[l].id
    {
      assert fired[k] in emitted && fired[l] in emitted;
      var x :| 0 <= x < |emitted| && emitted[x] == fired[k];
      var y :| 0 <= y < |emitted| && emitted[y] == fired[l];
      assert x != y;
    }
  }

  /** Reservation: emitted sequence numbers strictly increase and stay below the durable counter, so
      no crash, failed write or restart ever reuses one. */
  lemma {:induction false} NoSequenceReuse(sys: System, events: seq<Event>, i: nat)
    requires Init(sys) && Legal(sys, events) && i < 2
    ensures var n := Run(sys, events).nodes[i];
            && Ascending(n.ep.emitted)
            && (forall e :: e in n.ep.emitted ==> 1 <= e.seqNo < SendOnDisk(n.cfg, n.ep).nextSeq)
            && (n.ep.mem.Some? ==> forall e :: e in n.ep.emitted ==> e.seqNo < n.ep.mem.value.send.nextSeq)
  {
    InitEstablishesInv(sys);
    RunKeepsInv(sys, events);
  }

  /** The clips a device has accepted for good: those of the running session, or of the document. */
  function Settled(ep: Endpoint): (r: seq<ClipItem>)
  {
    if ep.mem.Some? then ep.mem.value.accepted else ep.acceptedOnDisk
  }

  lemma {:induction false} StepKeepsSettled(sys: System, e: Event, i: nat, a: ClipItem)
    requires SysInv(sys) && Enabled(sys, e) && i < 2
    requires a in Settled(sys.nodes[i].ep)
    ensures a in Settled(Step(sys, e).nodes[i].ep)
  {
  }

  lemma {:induction false} SettledStaysKept(sys: System, events: seq<Event>, i: nat, a: ClipItem)
    requires SysInv(sys) && Legal(sys, events) && i < 2
    requires a in Settled(sys.nodes[i].ep)
    ensures var n := Run(sys, events).nodes[i];
            a in Settled(n.ep) && Kept(a, RecvOnDisk(n.cfg, n.ep).pending, n.ep.hist.added)
    decreases |events|
  {
    if events == [] {
      SettledIsKept(sys.nodes[i], sys.nodes[1 - i], sys.minted, a);
    } else {
      StepKeepsInv(sys, events[0]);
      StepKeepsSettled(sys, events[0], i, a);
      SettledStaysKept(Step(sys, events[0]), events[1..], i, a);
    }
  }

  /** No loss: once a clip's first transaction succeeded, or a restart found it in the document, it is
      for ever after either durably pending or durably added to the history with its own time and
      content. */
  lemma {:induction false} NoAcceptedClipLost(sys: System, before: seq<Event>, after: seq<Event>, i: nat, a: ClipItem)
    requires Init(sys) && Legal(sys, before) && Legal(Run(sys, before), after) && i < 2
    requires a in Settled(Run(sys, before).nodes[i].ep)
    ensures var n := Run(Run(sys, before), after).nodes[i];
            Kept(a, RecvOnDisk(n.cfg, n.ep).pending, n.ep.hist.added)
  {
    InitEstablishesInv(sys);
    RunKeepsInv(sys, before);
    SettledStaysKept(Run(sys, before), after, i, a);
  }

  lemma {:induction false} SettledIsKept(n: Node, peer: Node, minted: Minted, a: ClipItem)
    requires NodeInv(n, peer, minted) && a in Settled(n.ep)
    ensures Kept(a, RecvOnDisk(n.cfg, n.ep).pending, n.ep.hist.added)
  {
  }

  /** Everything a fired clip has left on disk by the time its callback runs. */
  ghost predicate DurablyDelivered(cfg: Config, before: Endpoint, after: Endpoint, item: ClipItem)
    requires before.mem.Some?
  {
    && after.fired == before.fired + [item]
    && item.seqNo > before.mem.value.recv.lastSeq
    && RecvOnDisk(cfg, after).lastSeq == item.seqNo
    && item.id in RecvOnDisk(cfg, after).seenIds
    && (forall p :: p in RecvOnDisk(cfg, after).pending ==> p.id != item.id)
    && item.id in after.hist.added && Agrees(after.hist.added[item.id], item)
  }

  lemma {:induction false} DeliveryIsDurable(cfg: Config, ep: Endpoint, item: ClipItem, live: bool, env: RecvEnv,
                                             minted: Minted)
    requires Live(ep) && Inv(cfg, ep, minted) && KnownClip(minted, item)
    requires item.seqNo > ep.mem.value.recv.lastSeq
    ensures var r := Deliver(cfg, ep, item, live, env);
            r.ep.fired != ep.fired ==>
              DurablyDelivered(cfg, ep, r.ep, item) && env.deliver.Durable? && env.clear.Durable?
  {
    var r := Deliver(cfg, ep, item, live, env);
    if r.ep.fired != ep.fired {
      var entry := H.NewItem(item.id, item.ts, SourceOf(live), item.content);
      AddKeepsInv(cfg, ep, entry, env.add, minted);
      var committed := Accepted(ep.mem.value.recv, item, SourceOf(live));
      WithoutMembers(committed.pending, item.id);
      assert Last(committed.seenIds) == item.id;
    }
  }

  /** Fail closed: a callback fires only for a clip above the high-water mark, after both
      transactions and the history addition are durable; any persistence failure suppresses it. */
  lemma {:induction false} CallbackNeedsDurability(n: Node, frame: Frame, mailbox: bool, now: int, env: RecvEnv,
                                                   minted: Minted)
    requires Live(n.ep) && Inv(n.cfg, n.ep, minted)
    requires Authenticate(n.cfg, frame).Some? ==> KnownClip(minted, Authenticate(n.cfg, frame).value)
    ensures var r := Receive(n.cfg, n.ep, frame, mailbox, now, env);
            r.ep.fired != n.ep.fired ==>
              && Authenticate(n.cfg, frame).Some?
              && DurablyDelivered(n.cfg, n.ep, r.ep, Authenticate(n.cfg, frame).value)
              && env.deliver.Durable? && env.clear.Durable?
  {
    var item := Authenticate(n.cfg, frame);
    if item.Some? && item.value.seqNo > n.ep.mem.value.recv.lastSeq {
      DeliveryIsDurable(n.cfg, n.ep, item.value, Fresh(item.value, mailbox, now), env, minted);
    }
  }

  /** A successful restart leaves nothing pending, in memory or on disk, and fires nothing; every
      entry that was pending is in the history's log. A failed one fires nothing either. */
  lemma {:induction false} RestartSettles(n: Node, env: StartEnv, minted: Minted)
    requires ValidConfig(n.cfg) && Inv(n.cfg, n.ep, minted) && n.ep.mem.None?
    requires |env.adds| >= |RecvOnDisk(n.cfg, n.ep).pending|
    ensures var r := Start(n.cfg, n.ep, env);
            && r.ep.fired == n.ep.fired
            && (r.result.Ok? <==> r.ep.mem.Some?)
            && (r.result.Ok? ==>
                  && r.ep.mem.value.recv.pending == [] && RecvOnDisk(n.cfg, r.ep).pending == []
                  && r.ep.mem.value.accepted == n.ep.acceptedOnDisk
                  && forall p :: p in RecvOnDisk(n.cfg, n.ep).pending ==> p.id in r.ep.hist.added)
  {
    KeysDiffer(n.cfg);
    H.OpenKeepsInv(n.ep.hist, env.open);
    var reopened := H.Open(n.ep.hist, env.open);
    var recv := RecvOnDisk(n.cfg, n.ep);
    if reopened.status.Ok? {
      ReplayKeeps(reopened.world, recv.pending, env.adds, n.ep.acceptedOnDisk, recv.pending, minted);
    }
  }

  /** An item is refused if and only if some accepted clip has its number or a later one; a refusal
      changes nothing, a repeated id is always refused, and the ring holds the last 64 ids. */
  predicate RefusesLikeSeenSet(n: Node, item: ClipItem, r: RecvOut)
    requires n.ep.mem.Some?
  {
    var accepted := n.ep.mem.value.accepted;
    && (r.result == Ok(Duplicate) || r.result == Ok(Replay) <==>
          exists a :: a in accepted && item.seqNo <= a.seqNo)
    && (r.result == Ok(Duplicate) || r.result == Ok(Replay) ==> r.ep == n.ep)
    && (item.id in IdsOf(accepted) ==> r.result == Ok(Duplicate) || r.result == Ok(Replay))
    && n.ep.mem.value.recv.seenIds == LastN(IdsOf(accepted), SEEN_IDS_RING)
  }

  /** The bounded id ring and the high-water mark together refuse exactly what an unbounded record of
      every accepted clip would, in every run and across restarts. */
  lemma {:induction false} RingRefinesSeenSet(sys: System, events: seq<Event>, i: nat, frame: Frame, mailbox: bool,
                                              now: int, env: RecvEnv)
    requires Init(sys) && Legal(sys, events) && i < 2
    requires Live(Run(sys, events).nodes[i].ep) && Deliverable(Run(sys, events), frame)
    requires Authenticate(Run(sys, events).nodes[i].cfg, frame).Some?
    ensures var n := Run(sys, events).nodes[i];
            RefusesLikeSeenSet(n, Authenticate(n.cfg, frame).value, Receive(n.cfg, n.ep, frame, mailbox, now, env))
  {
    InitEstablishesInv(sys);
    RunKeepsInv(sys, events);
    RefusesInSystem(Run(sys, events), i, frame, mailbox, now, env);
  }

  lemma {:induction false} RefusesInSystem(sys: System, i: nat, frame: Frame, mailbox: bool, now: int, env: RecvEnv)
    requires SysInv(sys) && i < 2 && Live(sys.nodes[i].ep) && Deliverable(sys, frame)
    requires Authenticate(sys.nodes[i].cfg, frame).Some?
    ensures var n := sys.nodes[i];
            RefusesLikeSeenSet(n, Authenticate(n.cfg, frame).value, Receive(n.cfg, n.ep, frame, mailbox, now, env))
  {
    OpensOnlyFromPeer(sys, i, frame);
    RefusesAtNode(sys.nodes[i], sys.nodes[1 - i], sys.minted, frame, mailbox, now, env);
  }

  lemma {:induction false} RefusesAtNode(n: Node, peer: Node, minted: Minted, frame: Frame, mailbox: bool, now: int,
                                         env: RecvEnv)
    requires NodeInv(n, peer, minted) && NodeInv(peer, n, minted) && Live(n.ep)
    requires Authenticate(n.cfg, frame).Some? && Authenticate(n.cfg, frame).value in peer.ep.emitted
    ensures RefusesLikeSeenSet(n, Authenticate(n.cfg, frame).value, Receive(n.cfg, n.ep, frame, mailbox, now, env))
  {
    var item := Authenticate(n.cfg, frame).value;
    RefusalRule(n.ep.mem.value.recv, n.ep.mem.value.accepted, peer.ep.emitted, item);
  }

  lemma {:induction false} RefusalRule(recv: Direction, accepted: seq<ClipItem>, emitted: seq<ClipItem>, item: ClipItem)
    requires Tracks(recv, accepted) && DistinctIds(emitted) && item in emitted && 1 <= item.seqNo
    requires forall a :: a in accepted ==> a in emitted
    ensures item.id in recv.seenIds || item.seqNo <= recv.lastSeq <==>
              exists a :: a in accepted && item.seqNo <= a.seqNo
    ensures item.id in IdsOf(accepted) ==> item.seqNo <= recv.lastSeq
  {
  }

  /** Isolation: an operation writes only its own direction. Sends leave the receive state on disk
      alone, receives and restarts the send state, and nothing touches any other direction. */
  lemma {:induction false} DirectionsIsolated(n: Node, e: Event, key: Bytes)
    requires ValidConfig(n.cfg)
    requires !e.Starting? && !e.Crashing? ==> Live(n.ep)
    requires e.Starting? ==> |e.start.adds| >= |RecvOnDisk(n.cfg, n.ep).pending|
    requires key != SendKey(n.cfg) || !e.Sending?
    requires key != RecvKey(n.cfg) || !(e.Receiving? || e.Starting?)
    ensures key in Act(n, e).doc <==> key in n.ep.doc
    ensures key in n.ep.doc ==> Act(n, e).doc[key] == n.ep.doc[key]
  {
    match e
    case Sending(_, content, ts, id, env) =>
      OutsideAgrees(n.ep.doc, Send(n.cfg, n.ep, content, ts, id, env).ep.doc, SendKey(n.cfg), key);
    case Receiving(_, frame, mailbox, now, env) =>
      OutsideAgrees(n.ep.doc, Receive(n.cfg, n.ep, frame, mailbox, now, env).ep.doc, RecvKey(n.cfg), key);
    case Starting(_, env) =>
      OutsideAgrees(n.ep.doc, Start(n.cfg, n.ep, env).ep.doc, RecvKey(n.cfg), key);
    case _ =>
  }

  lemma {:induction false} OtherDirectionsUntouched(sys: System, events: seq<Event>, i: nat, key: Bytes)
    requires SysInv(sys) && Legal(sys, events) && i < 2
    requires key != SendKey(sys.nodes[i].cfg) && key != RecvKey(sys.nodes[i].cfg)
    ensures SysInv(Run(sys, events))
    ensures var doc, doc' := sys.nodes[i].ep.doc, Run(sys, events).nodes[i].ep.doc;
            (key in doc' <==> key in doc) && (key in doc ==> doc'[key] == doc[key])
    decreases |events|
  {
    if events != [] {
      StepKeepsInv(sys, events[0]);
      if events[0].i == i {
        DirectionsIsolated(sys.nodes[i], events[0], key);
      }
      OtherDirectionsUntouched(Step(sys, events[0]), events[1..], i, key);
    }
  }
}

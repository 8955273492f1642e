/** What every session operation keeps, whatever fails and wherever it stops. */
module SessionInvariant {
  import opened Prelude
  import opened Session
  import H = History

  /** What an item id was created for; ids are never handed out twice. */
  datatype Mint = Mint(ts: int, content: H.Content)

  type Minted = map<H.Id, Mint>

  predicate Known(minted: Minted, id: H.Id, ts: int, content: H.Content)
  {
    id in minted && minted[id] == Mint(ts, content)
  }

  predicate KnownClip(minted: Minted, a: ClipItem)
  {
    Known(minted, a.id, a.ts, a.content)
  }

  predicate KnownEntry(minted: Minted, n: H.NewItem)
  {
    Known(minted, n.id, n.ts, n.content)
  }

  predicate Ascending(s: seq<ClipItem>)
  {
    forall i, j :: 0 <= i < j < |s| ==> s[i].seqNo < s[j].seqNo
  }

  function IdsOf(s: seq<ClipItem>): (r: seq<H.Id>)
  {
    seq(|s|, i requires 0 <= i < |s| => s[i].id)
  }

  /** The receive state is what the unbounded list of accepted clips boils down to. */
  predicate Tracks(d: Direction, accepted: seq<ClipItem>)
  {
    && Ascending(accepted)
    && d.lastSeq == (if accepted == [] then 0 else Last(accepted).seqNo)
    && d.seenIds == LastN(IdsOf(accepted), SEEN_IDS_RING)
  }

  predicate Agrees(n: H.NewItem, a: ClipItem)
  {
    n.id == a.id && n.ts == a.ts && n.content == a.content
  }

  /** An accepted clip is either still pending or was durably added to the history. */
  predicate Kept(a: ClipItem, pending: seq<PendingItem>, added: map<H.Id, H.NewItem>)
  {
    (exists p :: p in pending && Agrees(p, a)) || (a.id in added && Agrees(added[a.id], a))
  }

  predicate AllKept(accepted: seq<ClipItem>, pending: seq<PendingItem>, added: map<H.Id, H.NewItem>)
  {
    forall a :: a in accepted ==> Kept(a, pending, added)
  }

  function SendOnDisk(cfg: Config, ep: Endpoint): (d: Direction)
  {
    LoadDirection(ep.doc, SendKey(cfg), cfg.generation)
  }

  function RecvOnDisk(cfg: Config, ep: Endpoint): (d: Direction)
  {
    LoadDirection(ep.doc, RecvKey(cfg), cfg.generation)
  }

  /** Every emitted number is below the durable reservation, and so is the session's own. */
  predicate SendInv(cfg: Config, ep: Endpoint)
  {
    && Ascending(ep.emitted)
    && 1 <= SendOnDisk(cfg, ep).nextSeq
    && (forall e :: e in ep.emitted ==> 1 <= e.seqNo < SendOnDisk(cfg, ep).nextSeq)
    && (ep.mem.Some? ==>
          && ep.mem.value.send.generation == cfg.generation
          && 1 <= ep.mem.value.send.nextSeq <= SendOnDisk(cfg, ep).nextSeq
          && (forall e :: e in ep.emitted ==> e.seqNo < ep.mem.value.send.nextSeq))
  }

  predicate RecvInv(cfg: Config, ep: Endpoint)
  {
    && Tracks(RecvOnDisk(cfg, ep), ep.acceptedOnDisk)
    && AllKept(ep.acceptedOnDisk, RecvOnDisk(cfg, ep).pending, ep.hist.added)
    && Ascending(ep.fired)
    && (forall f :: f in ep.fired ==> f in ep.acceptedOnDisk)
    && (ep.mem.Some? ==>
          var m := ep.mem.value;
          && m.recv.generation == cfg.generation
          && Tracks(m.recv, m.accepted)
          && AllKept(m.accepted, m.recv.pending, ep.hist.added)
          && (forall f :: f in ep.fired ==> f in m.accepted)
          && (forall a :: a in m.accepted ==> a in ep.acceptedOnDisk))
  }

  predicate KnownInv(cfg: Config, ep: Endpoint, minted: Minted)
  {
    && (forall a :: a in ep.emitted ==> KnownClip(minted, a))
    && (forall a :: a in ep.acceptedOnDisk ==> KnownClip(minted, a))
    && (forall p :: p in RecvOnDisk(cfg, ep).pending ==> KnownEntry(minted, p))
    && (forall id :: id in ep.hist.added ==> ep.hist.added[id].id == id && KnownEntry(minted, ep.hist.added[id]))
    && (ep.mem.Some? ==> forall p :: p in ep.mem.value.recv.pending ==> KnownEntry(minted, p))
  }

  ghost predicate Inv(cfg: Config, ep: Endpoint, minted: Minted)
  {
    && H.Inv(ep.hist)
    && (ep.mem.Some? <==> ep.hist.items.Some?)
    && SendInv(cfg, ep)
    && RecvInv(cfg, ep)
    && KnownInv(cfg, ep, minted)
  }

  // ---- Small facts ----

  lemma {:induction false} AscendingPush(s: seq<ClipItem>, x: ClipItem)
    requires Ascending(s) && (s != [] ==> Last(s).seqNo < x.seqNo)
    ensures Ascending(s + [x])
  {
  }

  lemma {:induction false} BelowLast(s: seq<ClipItem>, x: ClipItem)
    requires Ascending(s) && x in s
    ensures x.seqNo <= Last(s).seqNo
  {
  }

  lemma {:induction false} TracksAccepted(d: Direction, accepted: seq<ClipItem>, item: ClipItem, source: H.Source)
    requires Tracks(d, accepted) && item.seqNo > d.lastSeq
    ensures Tracks(Accepted(d, item, source), accepted + [item])
  {
  }

  /** Logging a further addition keeps every accepted clip kept. */
  lemma {:induction false} KeptUnderAddition(accepted: seq<ClipItem>, pending: seq<PendingItem>,
                                             added: map<H.Id, H.NewItem>, n: H.NewItem, minted: Minted)
    requires AllKept(accepted, pending, added) && KnownEntry(minted, n)
    requires forall a :: a in accepted ==> KnownClip(minted, a)
    ensures AllKept(accepted, pending, added[n.id := n])
  {
  }

  lemma {:induction false} WithoutMembers(pending: seq<PendingItem>, id: H.Id)
    ensures forall p :: p in Without(pending, id) <==> p in pending && p.id != id
  {
    if pending != [] {
      WithoutMembers(pending[1..], id);
      assert pending == [pending[0]] + pending[1..];
    }
  }

  /** The invariant speaks of the history only through its own consistency and its log. */
  lemma {:induction false} HistoryStepKeepsInv(cfg: Config, ep: Endpoint, w: H.World, minted: Minted)
    requires Inv(cfg, ep, minted) && H.Inv(w) && w.added == ep.hist.added
    requires w.items.Some? <==> ep.hist.items.Some?
    ensures Inv(cfg, ep.(hist := w), minted)
  {
  }

  lemma {:induction false} AddKeepsInv(cfg: Config, ep: Endpoint, n: H.NewItem, env: H.AddEnv, minted: Minted)
    requires Inv(cfg, ep, minted) && Live(ep) && KnownEntry(minted, n)
    ensures Inv(cfg, ep.(hist := H.Add(ep.hist, n, env).world), minted)
    ensures var w := H.Add(ep.hist, n, env);
            w.status.Ok? ==> n.id in w.world.added && KnownEntry(minted, w.world.added[n.id])
                             && w.world.added[n.id].id == n.id
  {
    H.AddKeepsInv(ep.hist, n, env);
    H.AddIsLogged(ep.hist, n, env);
    var ep' := ep.(hist := H.Add(ep.hist, n, env).world);
    assert RecvOnDisk(cfg, ep') == RecvOnDisk(cfg, ep) && SendOnDisk(cfg, ep') == SendOnDisk(cfg, ep);
    if ep'.hist.added != ep.hist.added {
      KeptUnderAddition(ep.acceptedOnDisk, RecvOnDisk(cfg, ep).pending, ep.hist.added, n, minted);
      KeptUnderAddition(ep.mem.value.accepted, ep.mem.value.recv.pending, ep.hist.added, n, minted);
    }
  }

  // ---- Sending ----

  lemma {:induction false} ReserveKeepsInv(cfg: Config, ep: Endpoint, commit: Commit, minted: Minted)
    requires ValidConfig(cfg) && Inv(cfg, ep, minted) && Live(ep)
    ensures Inv(cfg, Reserve(cfg, ep, commit), minted)
    ensures commit.Durable? ==> Reserve(cfg, ep, commit).mem.value.send.nextSeq == ep.mem.value.send.nextSeq + 1
  {
    KeysDiffer(cfg);
  }

  lemma {:induction false} EmitKeepsInv(cfg: Config, ep: Endpoint, item: ClipItem, minted: Minted)
    requires Inv(cfg, ep, minted) && Live(ep) && KnownClip(minted, item)
    requires 1 <= item.seqNo < ep.mem.value.send.nextSeq
    requires forall e :: e in ep.emitted ==> e.seqNo < item.seqNo
    ensures Inv(cfg, Emit(ep, item), minted)
  {
  }

  lemma {:induction false} SendKeepsInv(cfg: Config, ep: Endpoint, content: H.Content, ts: int, id: H.Id,
                                        env: SendEnv, minted: Minted)
    requires ValidConfig(cfg) && Inv(cfg, ep, minted) && Live(ep) && Known(minted, id, ts, content)
    ensures Inv(cfg, Send(cfg, ep, content, ts, id, env).ep, minted)
  {
    ReserveKeepsInv(cfg, ep, env.reserve, minted);
    if env.reserve.Durable? {
      var ep2 := Reserve(cfg, ep, env.reserve);
      AddKeepsInv(cfg, ep2, H.NewItem(id, ts, H.Local, content), env.add, minted);
      var ep3 := ep2.(hist := H.Add(ep.hist, H.NewItem(id, ts, H.Local, content), env.add).world);
      EmitKeepsInv(cfg, ep3, ClipItem(id, ts, ep.mem.value.send.nextSeq, content), minted);
    }
  }

  // ---- Receiving ----

  lemma {:induction false} FireKeepsInv(cfg: Config, ep: Endpoint, item: ClipItem, live: bool, env: RecvEnv,
                                        minted: Minted)
    requires Inv(cfg, ep, minted) && Live(ep)
    requires item in ep.mem.value.accepted && Ascending(ep.fired + [item])
    ensures Inv(cfg, Fire(ep, item, live, env).ep, minted)
  {
    var ep6 := ep.(fired := ep.fired + [item]);
    assert RecvOnDisk(cfg, ep6) == RecvOnDisk(cfg, ep) && SendOnDisk(cfg, ep6) == SendOnDisk(cfg, ep);
    assert Inv(cfg, ep6, minted);
    var ep' := Fire(ep, item, live, env).ep;
    H.SetSourceKeepsInv(ep.hist, item.id, H.Remote, env.promote);
    HistoryStepKeepsInv(cfg, ep6, ep'.hist, minted);
    EchoKeepsInv(cfg, ep6.(hist := ep'.hist), ep'.mem.value.echo, minted);
  }

  lemma {:induction false} ClearKeepsInv(cfg: Config, ep: Endpoint, item: ClipItem, commit: Commit, minted: Minted)
    requires ValidConfig(cfg) && Inv(cfg, ep, minted) && Live(ep)
    requires ep.acceptedOnDisk == ep.mem.value.accepted && item in ep.mem.value.accepted
    requires item.id in ep.hist.added && Agrees(ep.hist.added[item.id], item)
    ensures Inv(cfg, CommitClear(cfg, ep, item.id, commit), minted)
  {
    KeysDiffer(cfg);
    var m := ep.mem.value;
    var cleared := m.recv.(pending := Without(m.recv.pending, item.id));
    WithoutMembers(m.recv.pending, item.id);
    forall a | a in m.accepted
      ensures Kept(a, cleared.pending, ep.hist.added)
    {
      assert Kept(a, m.recv.pending, ep.hist.added);
      assert KnownClip(minted, a) && KnownClip(minted, item);
    }
    assert SendOnDisk(cfg, CommitClear(cfg, ep, item.id, commit)) == SendOnDisk(cfg, ep);
  }

  lemma {:induction false} SettleKeepsInv(cfg: Config, ep: Endpoint, item: ClipItem, live: bool, env: RecvEnv,
                                          minted: Minted)
    requires ValidConfig(cfg) && Inv(cfg, ep, minted) && Live(ep)
    requires ep.acceptedOnDisk == ep.mem.value.accepted
    requires item in ep.mem.value.accepted && Ascending(ep.fired + [item])
    requires item.id in ep.hist.added && Agrees(ep.hist.added[item.id], item)
    ensures Inv(cfg, Settle(cfg, ep, item, live, env).ep, minted)
  {
    ClearKeepsInv(cfg, ep, item, env.clear, minted);
    if env.clear.Durable? {
      FireKeepsInv(cfg, CommitClear(cfg, ep, item.id, env.clear), item, live, env, minted);
    }
  }

  lemma {:induction false} RecordKeepsInv(cfg: Config, ep: Endpoint, item: ClipItem, live: bool, env: RecvEnv,
                                          minted: Minted)
    requires ValidConfig(cfg) && Inv(cfg, ep, minted) && Live(ep)
    requires ep.acceptedOnDisk == ep.mem.value.accepted
    requires item in ep.mem.value.accepted && Ascending(ep.fired + [item])
    ensures Inv(cfg, Record(cfg, ep, item, live, env).ep, minted)
  {
    var n := H.NewItem(item.id, item.ts, SourceOf(live), item.content);
    assert KnownClip(minted, item);
    AddKeepsInv(cfg, ep, n, env.add, minted);
    var added := H.Add(ep.hist, n, env.add);
    if added.status.Ok? {
      SettleKeepsInv(cfg, ep.(hist := added.world), item, live, env, minted);
    }
  }

  /** The clip just accepted is pending; the others are kept as before. */
  lemma {:induction false} AcceptedKept(d: Direction, accepted: seq<ClipItem>, item: ClipItem, source: H.Source,
                                        added: map<H.Id, H.NewItem>)
    requires AllKept(accepted, d.pending, added)
    ensures AllKept(accepted + [item], Accepted(d, item, source).pending, added)
  {
    var pending := Accepted(d, item, source).pending;
    forall a | a in accepted + [item]
      ensures Kept(a, pending, added)
    {
      if a in accepted {
        assert Kept(a, d.pending, added);
        if p :| p in d.pending && Agrees(p, a) {
          assert p in pending;
        }
      } else {
        assert Last(pending) in pending && Agrees(Last(pending), a);
      }
    }
  }

  /** The write replaces the receive direction and nothing else. */
  lemma {:induction false} DeliveryOnDisk(cfg: Config, ep: Endpoint, item: ClipItem, live: bool, commit: Commit)
    requires ValidConfig(cfg) && Live(ep) && ep.mem.value.recv.generation == cfg.generation
    ensures var ep' := CommitDelivery(cfg, ep, item, live, commit);
            && SendOnDisk(cfg, ep') == SendOnDisk(cfg, ep)
            && RecvOnDisk(cfg, ep') == if commit.FailedOld? then RecvOnDisk(cfg, ep)
                                       else Accepted(ep.mem.value.recv, item, SourceOf(live))
  {
    KeysDiffer(cfg);
  }

  lemma {:induction false} DeliveryKeepsRecv(cfg: Config, ep: Endpoint, item: ClipItem, live: bool, commit: Commit)
    requires ValidConfig(cfg) && RecvInv(cfg, ep) && Live(ep) && item.seqNo > ep.mem.value.recv.lastSeq
    ensures RecvInv(cfg, CommitDelivery(cfg, ep, item, live, commit))
  {
    var m := ep.mem.value;
    DeliveryOnDisk(cfg, ep, item, live, commit);
    TracksAccepted(m.recv, m.accepted, item, SourceOf(live));
    AcceptedKept(m.recv, m.accepted, item, SourceOf(live), ep.hist.added);
  }

  lemma {:induction false} DeliveryKeepsKnown(cfg: Config, ep: Endpoint, item: ClipItem, live: bool, commit: Commit,
                                              minted: Minted)
    requires ValidConfig(cfg) && RecvInv(cfg, ep) && KnownInv(cfg, ep, minted) && Live(ep) && KnownClip(minted, item)
    ensures KnownInv(cfg, CommitDelivery(cfg, ep, item, live, commit), minted)
  {
    DeliveryOnDisk(cfg, ep, item, live, commit);
  }

  /** Step 1 keeps everything, whether the write lands, fails, or fails after landing. */
  lemma {:induction false} CommitKeepsInv(cfg: Config, ep: Endpoint, item: ClipItem, live: bool, commit: Commit,
                                          minted: Minted)
    requires ValidConfig(cfg) && Inv(cfg, ep, minted) && Live(ep)
    requires KnownClip(minted, item) && item.seqNo > ep.mem.value.recv.lastSeq
    ensures Inv(cfg, CommitDelivery(cfg, ep, item, live, commit), minted)
  {
    DeliveryOnDisk(cfg, ep, item, live, commit);
    DeliveryKeepsRecv(cfg, ep, item, live, commit);
    DeliveryKeepsKnown(cfg, ep, item, live, commit, minted);
  }

  lemma {:induction false} FiredBelow(cfg: Config, ep: Endpoint, item: ClipItem)
    requires RecvInv(cfg, ep) && ep.mem.Some? && item.seqNo > ep.mem.value.recv.lastSeq
    ensures Ascending(ep.fired + [item])
  {
    forall f | f in ep.fired
      ensures f.seqNo < item.seqNo
    {
      BelowLast(ep.mem.value.accepted, f);
    }
    AscendingPush(ep.fired, item);
  }

  lemma {:induction false} DeliverKeepsInv(cfg: Config, ep: Endpoint, item: ClipItem, live: bool, env: RecvEnv,
                                           minted: Minted)
    requires ValidConfig(cfg) && Inv(cfg, ep, minted) && Live(ep)
    requires KnownClip(minted, item) && item.seqNo > ep.mem.value.recv.lastSeq
    ensures Inv(cfg, Deliver(cfg, ep, item, live, env).ep, minted)
  {
    CommitKeepsInv(cfg, ep, item, live, env.deliver, minted);
    if env.deliver.Durable? {
      FiredBelow(cfg, ep, item);
      RecordKeepsInv(cfg, CommitDelivery(cfg, ep, item, live, env.deliver), item, live, env, minted);
    }
  }

  lemma {:induction false} ReceiveKeepsInv(cfg: Config, ep: Endpoint, frame: Frame, mailbox: bool, now: int,
                                           env: RecvEnv, minted: Minted)
    requires ValidConfig(cfg) && Inv(cfg, ep, minted) && Live(ep)
    requires Authenticate(cfg, frame).Some? ==> KnownClip(minted, Authenticate(cfg, frame).value)
    ensures Inv(cfg, Receive(cfg, ep, frame, mailbox, now, env).ep, minted)
  {
    var item := Authenticate(cfg, frame);
    if item.Some? && item.value.id !in ep.mem.value.recv.seenIds && item.value.seqNo > ep.mem.value.recv.lastSeq {
      DeliverKeepsInv(cfg, ep, item.value, Fresh(item.value, mailbox, now), env, minted);
    }
  }

  // ---- Restarting ----

  lemma {:induction false} DownKeepsInv(cfg: Config, ep: Endpoint, minted: Minted)
    requires Inv(cfg, ep, minted)
    ensures Inv(cfg, Down(ep), minted)
  {
  }

  /** Replaying adds every pending entry it got through; a success means all of them. */
  lemma {:induction false} ReplayKeeps(w: H.World, pending: seq<PendingItem>, adds: seq<H.AddEnv>,
                                       accepted: seq<ClipItem>, onDisk: seq<PendingItem>, minted: Minted)
    requires w.items.Some? && |adds| >= |pending| && H.Inv(w)
    requires AllKept(accepted, onDisk, w.added)
    requires forall a :: a in accepted ==> KnownClip(minted, a)
    requires forall p :: p in pending ==> KnownEntry(minted, p)
    requires forall id :: id in w.added ==> w.added[id].id == id && KnownEntry(minted, w.added[id])
    ensures var r := ReplayPending(w, pending, adds);
            && r.world.items.Some? && H.Inv(r.world)
            && AllKept(accepted, onDisk, r.world.added)
            && (forall id :: id in r.world.added ==>
                  r.world.added[id].id == id && KnownEntry(minted, r.world.added[id]))
            && (forall id :: id in w.added ==> id in r.world.added)
            && (r.status.Ok? ==> forall p :: p in pending ==> p.id in r.world.added)
    decreases |pending|
  {
    if pending != [] {
      var first := H.Add(w, pending[0], adds[0]);
      assert pending[0] in pending;
      H.AddKeepsInv(w, pending[0], adds[0]);
      H.AddIsLogged(w, pending[0], adds[0]);
      if first.world.added != w.added {
        KeptUnderAddition(accepted, onDisk, w.added, pending[0], minted);
      }
      if first.status.Ok? {
        ReplayKeeps(first.world, pending[1..], adds[1..], accepted, onDisk, minted);
        assert pending == [pending[0]] + pending[1..];
      }
    }
  }

  /** The restart's own transaction, after a complete replay into `w`. */
  lemma {:induction false} SettledStartKeepsInv(cfg: Config, ep: Endpoint, w: H.World, commit: Commit, minted: Minted)
    requires ValidConfig(cfg) && Inv(cfg, ep, minted) && ep.mem.None?
    requires H.Inv(w) && w.items.Some?
    requires AllKept(ep.acceptedOnDisk, [], w.added) && AllKept(ep.acceptedOnDisk, RecvOnDisk(cfg, ep).pending, w.added)
    requires forall id :: id in w.added ==> w.added[id].id == id && KnownEntry(minted, w.added[id])
    ensures var settled := RecvOnDisk(cfg, ep).(pending := []);
            var ep2 := ep.(hist := w, doc := Written(ep.doc, RecvKey(cfg), settled, commit));
            && Inv(cfg, Down(ep2), minted)
            && (commit.Durable? ==>
                  Inv(cfg, ep2.(mem := Some(Mem(SendOnDisk(cfg, ep), settled, [], ep.acceptedOnDisk))), minted))
  {
  }

  /** Opening or replaying without finishing changes only the history. */
  lemma {:induction false} PartialStartKeepsInv(cfg: Config, ep: Endpoint, w: H.World, minted: Minted)
    requires Inv(cfg, ep, minted) && ep.mem.None? && H.Inv(w)
    requires AllKept(ep.acceptedOnDisk, RecvOnDisk(cfg, ep).pending, w.added)
    requires forall id :: id in w.added ==> w.added[id].id == id && KnownEntry(minted, w.added[id])
    ensures Inv(cfg, Down(ep.(hist := w)), minted)
  {
  }

  lemma {:induction false} PlainStartKeepsInv(cfg: Config, ep: Endpoint, w: H.World, minted: Minted)
    requires Inv(cfg, ep, minted) && ep.mem.None? && H.Inv(w) && w.items.Some? && w.added == ep.hist.added
    ensures var mem := Mem(SendOnDisk(cfg, ep), RecvOnDisk(cfg, ep), [], ep.acceptedOnDisk);
            Inv(cfg, ep.(hist := w, mem := Some(mem)), minted)
  {
  }

  lemma {:induction false} StartKeepsInv(cfg: Config, ep: Endpoint, env: StartEnv, minted: Minted)
    requires ValidConfig(cfg) && Inv(cfg, ep, minted) && ep.mem.None?
    requires |env.adds| >= |RecvOnDisk(cfg, ep).pending|
    ensures Inv(cfg, Start(cfg, ep, env).ep, minted)
  {
    H.OpenKeepsInv(ep.hist, env.open);
    var w := H.Open(ep.hist, env.open).world;
    PartialStartKeepsInv(cfg, ep, w, minted);
    if w.items.Some? {
      PlainStartKeepsInv(cfg, ep, w, minted);
      var pending := RecvOnDisk(cfg, ep).pending;
      ReplayKeeps(w, pending, env.adds, ep.acceptedOnDisk, pending, minted);
      var replayed := ReplayPending(w, pending, env.adds);
      PartialStartKeepsInv(cfg, ep, replayed.world, minted);
      if replayed.status.Ok? {
        AllAddedMeansKept(ep.acceptedOnDisk, pending, replayed.world.added, minted);
        SettledStartKeepsInv(cfg, ep, replayed.world, env.commit, minted);
      }
    }
  }

  lemma {:induction false} AllAddedMeansKept(accepted: seq<ClipItem>, pending: seq<PendingItem>,
                                             added: map<H.Id, H.NewItem>, minted: Minted)
    requires AllKept(accepted, pending, added)
    requires forall p :: p in pending ==> p.id in added
    requires forall a :: a in accepted ==> KnownClip(minted, a)
    requires forall id :: id in added ==> added[id].id == id && KnownEntry(minted, added[id])
    ensures AllKept(accepted, [], added)
  {
  }

  lemma {:induction false} ApplyKeepsInv(cfg: Config, ep: Endpoint, id: H.Id, persist: H.Write, minted: Minted)
    requires Inv(cfg, ep, minted) && Live(ep)
    ensures Inv(cfg, ApplyDeferred(ep, id, persist).ep, minted)
  {
    H.SetSourceKeepsInv(ep.hist, id, H.Remote, persist);
    HistoryStepKeepsInv(cfg, ep, H.SetSource(ep.hist, id, H.Remote, persist).world, minted);
    var ep' := ApplyDeferred(ep, id, persist).ep;
    EchoKeepsInv(cfg, ep.(hist := ep'.hist), ep'.mem.value.echo, minted);
  }

  lemma {:induction false} EchoKeepsInv(cfg: Config, ep: Endpoint, echo: seq<Hash>, minted: Minted)
    requires Inv(cfg, ep, minted) && Live(ep)
    ensures Inv(cfg, ep.(mem := Some(ep.mem.value.(echo := echo))), minted)
  {
  }

  lemma {:induction false} ClearAllKeepsInv(cfg: Config, ep: Endpoint, persist: H.Write, stuck: set<H.FileName>,
                                            minted: Minted)
    requires Inv(cfg, ep, minted) && Live(ep)
    ensures Inv(cfg, ClearHistory(ep, persist, stuck).ep, minted)
  {
  }
}

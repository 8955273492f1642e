/** What sending, receiving and restarting achieve when they succeed, and exactly when they do: a sent frame opens on
    the other device, and a received clip reaches the clipboard. */
module SessionMeaning {
  import opened Prelude
  import opened Session
  import opened SessionInvariant
  import opened System
  import C = Crypto
  import H = History
  import M = HistoryMeaning

  // ---- Sending ----

  /** Why a send is refused, in the order the checks are made. */
  predicate SendsExactly(ep: Endpoint, content: H.Content, env: SendEnv, result: Result<Frame>, listed: H.Status)
    requires Live(ep)
  {
    var oversize := content.Image? && |content.bytes| > 10485760;
    var spent := ep.mem.value.send.nextSeq >= 18446744073709551615;
    && (result == Err(Oversize) <==> oversize)
    && (result == Err(RecordMismatch) <==> !oversize && spent)
    && (result == Err(Io) <==> !oversize && !spent && !env.reserve.Durable?)
    && (result == Err(InjectedFault) <==> !oversize && !spent && env.reserve.Durable? && env.stop)
    && (result == Err(Protocol) <==> !oversize && !spent && env.reserve.Durable? && !env.stop && !env.encoded)
    && (result == Err(CryptoError) <==>
          !oversize && !spent && env.reserve.Durable? && !env.stop && env.encoded && !env.sealed)
    && (result == Err(HistoryError) <==>
          !oversize && !spent && env.reserve.Durable? && !env.stop && env.encoded && env.sealed && !listed.Ok?)
    && (result.Ok? <==>
          !oversize && !spent && env.reserve.Durable? && !env.stop && env.encoded && env.sealed && listed.Ok?)
  }

  /** A send succeeds exactly when the content fits, numbers are left, the reservation is durable, nothing stops it,
      encoding and sealing work and the history takes the item; every failure is told apart. A number is used up
      exactly when the reservation is durable, and the document has it even if the write reported a failure. */
  lemma {:induction false} SendSucceedsExactly(cfg: Config, ep: Endpoint, content: H.Content, ts: int, id: H.Id,
                                               env: SendEnv)
    requires Live(ep)
    ensures var r := Send(cfg, ep, content, ts, id, env);
            var entry := H.NewItem(id, ts, H.Local, content);
            var tried := !(content.Image? && |content.bytes| > 10485760)
                         && ep.mem.value.send.nextSeq < 18446744073709551615;
            var reserved := ep.mem.value.send.(nextSeq := ep.mem.value.send.nextSeq + 1);
            && SendsExactly(ep, content, env, r.result, H.Add(ep.hist, entry, env.add).status)
            && r.ep.mem.value.send == (if tried && env.reserve.Durable? then reserved else ep.mem.value.send)
            && r.ep.doc == (if tried && !env.reserve.FailedOld?
                            then ep.doc[C.DirectionKey(cfg.room, cfg.selfFp, cfg.peerFp) := reserved] else ep.doc)
            && (r.result.Ok? ==> r.ep.hist == H.Add(ep.hist, entry, env.add).world)
  {
  }

  /** What is sent opens on the paired device as the clip that was sent: same id, time and content, numbered with the
      number just reserved. It is the last clip emitted, and its text is remembered as an echo. */
  lemma {:induction false} SentFrameOpens(a: Config, b: Config, ep: Endpoint, content: H.Content, ts: int, id: H.Id,
                                          env: SendEnv)
    requires Paired(a, b) && Live(ep) && Send(a, ep, content, ts, id, env).result.Ok?
    ensures var r := Send(a, ep, content, ts, id, env);
            var item := ClipItem(id, ts, ep.mem.value.send.nextSeq, content);
            && Authenticate(b, r.result.value) == Some(item)
            && r.ep.emitted == ep.emitted + [item]
            && r.ep.mem.value.echo == (if content.Text? then Remembered(ep.mem.value.echo, TextHash(content.text))
                                       else ep.mem.value.echo)
  {
  }

  /** The echo ring with a hash in it: unchanged if it was there, else the hash comes last and the ring keeps the last
      64. */
  function Remembered(echo: seq<Hash>, hash: Hash): (echo': seq<Hash>)
  {
    if hash in echo then echo
    else if |echo| < 64 then echo + [hash] else echo[|echo| - 63..] + [hash]
  }

  // ---- Receiving ----

  /** A live clip is at most five minutes old and at most two minutes ahead. */
  predicate IsLive(item: ClipItem, mailbox: bool, now: int)
  {
    !mailbox && now - 300000 <= item.ts <= now + 120000
  }

  function SourceFor(item: ClipItem, mailbox: bool, now: int): (source: H.Source)
  {
    if IsLive(item, mailbox, now) then H.Remote else H.RemoteDeferred
  }

  /** The history's answer to the clip. */
  function Listing(ep: Endpoint, item: ClipItem, mailbox: bool, now: int, env: RecvEnv): (out: H.Out)
    requires Live(ep)
  {
    H.Add(ep.hist, H.NewItem(item.id, item.ts, SourceFor(item, mailbox, now), item.content), env.add)
  }

  /** The clip is new to the device. */
  predicate IsNew(ep: Endpoint, item: ClipItem)
    requires Live(ep)
  {
    item.id !in ep.mem.value.recv.seenIds && item.seqNo > ep.mem.value.recv.lastSeq
  }

  /** Everything before the callback goes through. */
  predicate Recorded(ep: Endpoint, item: ClipItem, mailbox: bool, now: int, env: RecvEnv)
    requires Live(ep)
  {
    && env.deliver.Durable? && Listing(ep, item, mailbox, now, env).status.Ok? && env.clear.Durable?
    && env.stop != Some(DeliveryCommitted) && env.stop != Some(HistoryAdded) && env.stop != Some(PendingCleared)
  }

  /** A frame that does not open, a repeated id and a number at or below the mark change nothing. */
  lemma {:induction false} RefusedExactly(cfg: Config, ep: Endpoint, frame: Frame, mailbox: bool, now: int,
                                          env: RecvEnv)
    requires Live(ep)
    ensures var r, clip := Receive(cfg, ep, frame, mailbox, now, env), Authenticate(cfg, frame);
            && (r.result == Ok(Unauthenticated) <==> clip.None?)
            && (r.result == Ok(Duplicate) <==> clip.Some? && clip.value.id in ep.mem.value.recv.seenIds)
            && (r.result == Ok(Replay) <==>
                  clip.Some? && clip.value.id !in ep.mem.value.recv.seenIds
                  && clip.value.seqNo <= ep.mem.value.recv.lastSeq)
            && (clip.None? || !IsNew(ep, clip.value) ==> r.ep == ep)
  {
  }

  /** The callback runs exactly when the clip is new, both transactions are durable, the history takes it and nothing
      stops the receiver before; then it is the one clip that fires. */
  lemma {:induction false} FiresExactly(cfg: Config, ep: Endpoint, frame: Frame, mailbox: bool, now: int, env: RecvEnv,
                                        item: ClipItem)
    requires Live(ep) && Authenticate(cfg, frame) == Some(item)
    ensures Receive(cfg, ep, frame, mailbox, now, env).ep.fired
            == if IsNew(ep, item) && Recorded(ep, item, mailbox, now, env) then ep.fired + [item] else ep.fired
  {
  }

  /** Why a new clip does not get as far as the callback. */
  lemma {:induction false} SuppressedExactly(cfg: Config, ep: Endpoint, frame: Frame, mailbox: bool, now: int,
                                             env: RecvEnv, item: ClipItem)
    requires Live(ep) && Authenticate(cfg, frame) == Some(item) && IsNew(ep, item)
    requires !Recorded(ep, item, mailbox, now, env)
    ensures Receive(cfg, ep, frame, mailbox, now, env).result
            == if !env.deliver.Durable? then Err(Io)
               else if env.stop == Some(DeliveryCommitted) then Err(InjectedFault)
               else if !Listing(ep, item, mailbox, now, env).status.Ok? then Err(HistoryError)
               else if env.stop == Some(HistoryAdded) then Err(InjectedFault)
               else if !env.clear.Durable? then Err(Io)
               else Err(InjectedFault)
  {
  }

  /** The promotion of a mailbox clip that was applied. */
  function Promotion(ep: Endpoint, item: ClipItem, mailbox: bool, now: int, env: RecvEnv): (out: H.Out)
    requires Live(ep)
  {
    H.SetSource(Listing(ep, item, mailbox, now, env).world, item.id, H.Remote, env.promote)
  }

  /** The clip counts as applied: live and taken, or from the mailbox, taken and promoted. */
  predicate IsApplied(ep: Endpoint, item: ClipItem, mailbox: bool, now: int, env: RecvEnv)
    requires Live(ep)
  {
    !env.callback.Refused?
    && (IsLive(item, mailbox, now)
        || (env.callback.Applied? && env.stop != Some(AppliedStage) && env.stop != Some(SourcePromoted)
            && Promotion(ep, item, mailbox, now, env).status.Ok?))
  }

  /** What a clip that fires is answered with, and what it leaves: a text is remembered as an echo exactly when the clip
      counts as applied, and the history is that of its listing, promoted exactly if a mailbox clip was applied. */
  lemma {:induction false} FiredOutcome(cfg: Config, ep: Endpoint, frame: Frame, mailbox: bool, now: int, env: RecvEnv,
                                        item: ClipItem)
    requires Live(ep) && Authenticate(cfg, frame) == Some(item) && IsNew(ep, item)
    requires Recorded(ep, item, mailbox, now, env)
    ensures var r, live := Receive(cfg, ep, frame, mailbox, now, env), IsLive(item, mailbox, now);
            var echo, applied := ep.mem.value.echo, IsApplied(ep, item, mailbox, now, env);
            && (r.result == Err(CallbackError) <==> env.callback.Refused?)
            && (r.result == Ok(LiveApplied) <==> live && applied)
            && (r.result == Ok(MailboxApplied) <==> !live && applied)
            && (r.result == Ok(MailboxDeferred) <==> !live && env.callback.Deferred?)
            && (!live && env.callback.Applied? && !applied ==>
                  r.result == if env.stop == Some(AppliedStage)
                                 || Promotion(ep, item, mailbox, now, env).status.Ok? then Err(InjectedFault)
                              else Err(HistoryError))
            && r.ep.mem.value.echo == (if applied && item.content.Text?
                                       then Remembered(echo, TextHash(item.content.text)) else echo)
            && r.ep.hist == (if !live && env.callback.Applied? && env.stop != Some(AppliedStage)
                             then Promotion(ep, item, mailbox, now, env).world
                             else Listing(ep, item, mailbox, now, env).world)
  {
  }

  /** What a clip that fires leaves in memory and on disk: its number is the mark, its id is remembered, and nothing is
      pending for it. */
  lemma {:induction false} FiredSettles(cfg: Config, ep: Endpoint, frame: Frame, mailbox: bool, now: int, env: RecvEnv,
                                        item: ClipItem)
    requires Live(ep) && Authenticate(cfg, frame) == Some(item) && IsNew(ep, item)
    requires Recorded(ep, item, mailbox, now, env)
    ensures var r, recv := Receive(cfg, ep, frame, mailbox, now, env), ep.mem.value.recv;
            var recv' := r.ep.mem.value.recv;
            && r.ep.doc == ep.doc[C.DirectionKey(cfg.room, cfg.peerFp, cfg.selfFp) := recv']
            && recv'.lastSeq == item.seqNo && recv'.generation == recv.generation && recv'.nextSeq == recv.nextSeq
            && recv'.seenIds == (if |recv.seenIds| < 64 then recv.seenIds + [item.id]
                                 else recv.seenIds[|recv.seenIds| - 63..] + [item.id])
            && (forall p :: p in recv'.pending <==> p in recv.pending && p.id != item.id)
            && r.ep.mem.value.send == ep.mem.value.send
  {
    var committed := Accepted(ep.mem.value.recv, item, SourceFor(item, mailbox, now));
    WithoutMembers(committed.pending, item.id);
  }

  /** The row of an addition, before and after it is promoted. */
  lemma {:induction false} ListedThenPromoted(w: H.World, n: H.NewItem, add: H.AddEnv, promote: H.Write)
    requires H.Inv(w) && w.items.Some? && !M.IsListed(w.items.value, n.id) && H.Add(w, n, add).status.Ok?
    ensures var items := H.Add(w, n, add).world.items.value;
            items != [] && Last(items) == M.RowFor(n)
    ensures var r := H.SetSource(H.Add(w, n, add).world, n.id, H.Remote, promote);
            var moved := n.source.RemoteDeferred? && r.status.Ok?;
            && (r.status.Ok? <==> !n.source.RemoteDeferred? || promote.Written?)
            && r.world.items.value != []
            && Last(r.world.items.value) == M.RowFor(if moved then n.(source := H.Remote) else n)
  {
    M.AddListsExactly(w, n, add);
    H.AddKeepsInv(w, n, add);
    M.SetSourceExactly(H.Add(w, n, add).world, n.id, H.Remote, promote);
  }

  /** The row a new clip is listed as when it has fired: last, with its time and content, as received if it was live or
      was applied from the mailbox and the promotion was written, else as deferred. */
  lemma {:induction false} FiredIsListed(cfg: Config, ep: Endpoint, frame: Frame, mailbox: bool, now: int, env: RecvEnv,
                                         item: ClipItem)
    requires H.Inv(ep.hist) && Live(ep) && Authenticate(cfg, frame) == Some(item) && IsNew(ep, item)
    requires Recorded(ep, item, mailbox, now, env) && !M.IsListed(ep.hist.items.value, item.id)
    ensures var items := Receive(cfg, ep, frame, mailbox, now, env).ep.hist.items.value;
            var promoted := env.callback.Applied? && env.stop != Some(AppliedStage) && env.promote.Written?;
            var source := if IsLive(item, mailbox, now) || promoted then H.Remote else H.RemoteDeferred;
            items != [] && Last(items) == M.RowFor(H.NewItem(item.id, item.ts, source, item.content))
  {
    FiredOutcome(cfg, ep, frame, mailbox, now, env, item);
    ListedThenPromoted(ep.hist, H.NewItem(item.id, item.ts, SourceFor(item, mailbox, now), item.content), env.add,
                       env.promote);
  }

  // ---- Restarting ----

  /** A session starts exactly when the history opens, the record is this identity's and of another device, keys and
      document load, and everything pending is added and durably cleared. It starts from what is on disk, with an empty
      echo ring and nothing pending. */
  lemma {:induction false} StartsExactly(cfg: Config, ep: Endpoint, env: StartEnv)
    requires |env.adds| >= |RecvOnDisk(cfg, ep).pending|
    ensures var r, history := Start(cfg, ep, env), H.Open(ep.hist, env.open);
            var send, recv := SendOnDisk(cfg, ep), RecvOnDisk(cfg, ep);
            var matches := cfg.generation == env.presented.generation && cfg.selfFp == env.presented.fp
                           && cfg.selfFp != cfg.peerFp;
            && (!history.status.Ok? ==> r.result == Err(HistoryError))
            && (!history.status.Ok? || !matches || !env.keys || !env.loaded ==>
                  r.ep == ep.(mem := None, hist := history.world.(items := None)))
            && (history.status.Ok? ==>
                  && (!matches ==> r.result == Err(RecordMismatch))
                  && (matches && !env.keys ==> r.result == Err(CryptoError))
                  && (matches && env.keys && !env.loaded ==> r.result == Err(Io))
                  && (matches && env.keys && env.loaded ==>
                        var replayed := ReplayPending(history.world, recv.pending, env.adds);
                        && (r.result == Err(HistoryError) <==> !replayed.status.Ok?)
                        && (r.result == Err(Io) <==> replayed.status.Ok? && recv.pending != [] && !env.commit.Durable?)
                        && (r.result.Ok? <==> replayed.status.Ok? && (recv.pending == [] || env.commit.Durable?))
                        && r.ep.hist.dir == replayed.world.dir && r.ep.hist.added == replayed.world.added
                        && (r.result.Ok? ==> r.ep.hist == replayed.world)))
            && (r.result.Ok? ==> r.ep.mem == Some(Mem(send, recv.(pending := []), [], ep.acceptedOnDisk)))
  {
  }

  function RowsFor(pending: seq<PendingItem>): (rows: seq<H.Item>)
    ensures |rows| == |pending|
  {
    seq(|pending|, i requires 0 <= i < |pending| => M.RowFor(pending[i]))
  }

  /** The entries have different ids, none of which is listed. */
  predicate AllNew(items: seq<H.Item>, pending: seq<PendingItem>)
  {
    && (forall p :: p in pending ==> !M.IsListed(items, p.id))
    && forall i, j :: 0 <= i < j < |pending| ==> pending[i].id != pending[j].id
  }

  lemma {:induction false} LastNTwice<T>(a: seq<T>, b: seq<T>, n: nat)
    ensures LastN(LastN(a, n) + b, n) == LastN(a + b, n)
  {
  }

  lemma {:induction false} AllNewNext(items: seq<H.Item>, pending: seq<PendingItem>, items': seq<H.Item>)
    requires AllNew(items, pending) && pending != []
    requires items' == LastN(items + [M.RowFor(pending[0])], 50)
    ensures AllNew(items', pending[1..])
  {
    forall p | p in pending[1..]
      ensures !M.IsListed(items', p.id)
    {
      assert p in pending;
    }
  }

  lemma {:induction false} OneThenRest(items: seq<H.Item>, pending: seq<PendingItem>)
    requires pending != []
    ensures LastN(LastN(items + [M.RowFor(pending[0])], 50) + RowsFor(pending[1..]), 50)
            == LastN(items + RowsFor(pending), 50)
  {
    var row := M.RowFor(pending[0]);
    LastNTwice(items + [row], RowsFor(pending[1..]), 50);
    assert RowsFor(pending) == [row] + RowsFor(pending[1..]);
    assert items + RowsFor(pending) == items + [row] + RowsFor(pending[1..]);
  }

  lemma {:induction false} OneAppended(w: H.World, n: H.NewItem, env: H.AddEnv)
    requires H.Inv(w) && w.items.Some? && !M.IsListed(w.items.value, n.id) && H.Add(w, n, env).status.Ok?
    ensures var w' := H.Add(w, n, env).world;
            H.Inv(w') && w'.items == Some(LastN(w.items.value + [M.RowFor(n)], 50))
  {
    H.ListedIsValid(w.dir.meta);
    M.AddListsExactly(w, n, env);
    H.AddKeepsInv(w, n, env);
    var items := w.items.value;
    assert items != [] ==> (items + [M.RowFor(n)])[1..] == items[1..] + [M.RowFor(n)];
  }

  /** A replay that goes through appends the pending entries to the list in their order, as far as 50 go. */
  lemma {:induction false} ReplayAppends(w: H.World, pending: seq<PendingItem>, adds: seq<H.AddEnv>)
    requires H.Inv(w) && w.items.Some? && |adds| >= |pending| && AllNew(w.items.value, pending)
    requires ReplayPending(w, pending, adds).status.Ok?
    ensures ReplayPending(w, pending, adds).world.items == Some(LastN(w.items.value + RowsFor(pending), 50))
    decreases |pending|
  {
    if pending == [] {
      H.ListedIsValid(w.dir.meta);
      assert w.items.value + RowsFor(pending) == w.items.value;
    } else {
      assert pending[0] in pending;
      OneAppended(w, pending[0], adds[0]);
      var w' := H.Add(w, pending[0], adds[0]).world;
      AllNewNext(w.items.value, pending, w'.items.value);
      ReplayAppends(w', pending[1..], adds[1..]);
      OneThenRest(w.items.value, pending);
    }
  }

  /** A direction the document does not have, or has of another generation, starts at number one with nothing received,
      seen or pending; any other is taken as it is. */
  lemma {:induction false} LoadsExactly(doc: Doc, key: Bytes, generation: nat)
    ensures LoadDirection(doc, key, generation)
            == if key in doc && doc[key].generation == generation then doc[key]
               else Direction(generation, 1, 0, [], [])
  {
  }

  // ---- By hand ----

  /** Applying a deferred item by hand promotes it and remembers its text as an echo, exactly when the history does not
      refuse; clearing empties the history and leaves the session alone. */
  lemma {:induction false} HandOperations(ep: Endpoint, id: H.Id, persist: H.Write, stuck: set<H.FileName>, i: nat)
    requires H.Inv(ep.hist) && Live(ep)
    ensures var r, promoted := ApplyDeferred(ep, id, persist), H.SetSource(ep.hist, id, H.Remote, persist);
            var items, echo := promoted.world.items.value, ep.mem.value.echo;
            && (r.result.Ok? <==> promoted.status.Ok?) && r.ep.hist == promoted.world
            && (!promoted.status.Ok? ==> r.result == Err(HistoryError) && r.ep.mem == ep.mem)
            && (promoted.status.Ok? && i < |items| && items[i].id == id ==>
                  r.ep.mem.value.echo == if items[i].kind.TextKind?
                                         then Remembered(echo, TextHash(items[i].kind.content)) else echo)
    ensures var r, cleared := ClearHistory(ep, persist, stuck), H.Clear(ep.hist, persist, stuck);
            r.ep == ep.(hist := cleared.world) && r.result == if cleared.status.Ok? then Ok(()) else Err(HistoryError)
  {
    M.SetSourceExactly(ep.hist, id, H.Remote, persist);
    H.ListedIsValid(H.SetSource(ep.hist, id, H.Remote, persist).world.dir.meta);
  }

  // ---- From one device to the other ----

  /** A frame one device has sent may be delivered to the other ever after. */
  lemma {:induction false} SentIsDeliverable(sys: System, i: nat, item: ClipItem, frame: Frame)
    requires |sys.nodes| == 2 && Paired(sys.nodes[0].cfg, sys.nodes[1].cfg) && i < 2
    requires item in sys.nodes[i].ep.emitted && frame == Seal(sys.nodes[i].cfg, item)
    ensures Deliverable(sys, frame) && Authenticate(sys.nodes[1 - i].cfg, frame) == Some(item)
  {
  }

  /** The network may deliver anything, any number of times and to either device, with any room on it, except a seal
      under one of the two session keys that neither device has made. */
  lemma {:induction false} DeliverableExactly(sys: System, frame: Frame)
    requires |sys.nodes| == 2 && Paired(sys.nodes[0].cfg, sys.nodes[1].cfg)
    ensures var a, b := sys.nodes[0], sys.nodes[1];
            Deliverable(sys, frame) <==>
              || frame.sealed.None?
              || frame.sealed.value.key !in {a.cfg.keys.send, b.cfg.keys.send}
              || (exists item :: item in a.ep.emitted && frame.sealed == Seal(a.cfg, item).sealed)
              || (exists item :: item in b.ep.emitted && frame.sealed == Seal(b.cfg, item).sealed)
  {
    var a, b := sys.nodes[0], sys.nodes[1];
    if frame.sealed.Some? {
      var key := frame.sealed.value.key;
      if key == a.cfg.keys.send {
        assert key == sys.nodes[0].cfg.keys.send;
      } else if key == b.cfg.keys.send {
        assert key == sys.nodes[1].cfg.keys.send;
      }
      if item :| item in a.ep.emitted && frame.sealed == Seal(a.cfg, item).sealed {
        assert item in sys.nodes[0].ep.emitted && frame.sealed == Seal(sys.nodes[0].cfg, item).sealed;
      }
      if item :| item in b.ep.emitted && frame.sealed == Seal(b.cfg, item).sealed {
        assert item in sys.nodes[1].ep.emitted && frame.sealed == Seal(sys.nodes[1].cfg, item).sealed;
      }
    }
  }

  lemma {:induction false} EmittedStays(sys: System, events: seq<Event>, i: nat, item: ClipItem)
    requires SysInv(sys) && Legal(sys, events) && i < 2 && item in sys.nodes[i].ep.emitted
    ensures item in Run(sys, events).nodes[i].ep.emitted
    decreases |events|
  {
    if events != [] {
      StepKeepsInv(sys, events[0]);
      LogEffects(sys.nodes[events[0].i], events[0], sys.minted);
      EmittedStays(Step(sys, events[0]), events[1..], i, item);
    }
  }

  /** A number above the mark is enough to be new: an id that was seen before came with a number at or below it. */
  lemma {:induction false} AboveMarkIsNew(n: Node, peer: Node, minted: Minted, item: ClipItem)
    requires NodeInv(n, peer, minted) && NodeInv(peer, n, minted) && Live(n.ep) && item in peer.ep.emitted
    requires item.seqNo > n.ep.mem.value.recv.lastSeq
    ensures IsNew(n.ep, item)
  {
    RefusalRule(n.ep.mem.value.recv, n.ep.mem.value.accepted, peer.ep.emitted, item);
  }

  /** The frame opens as the clip on the peer of device `i`; and should the peer's mark be below the clip's number, and
      its transactions, its history and the absence of a stop allow it, receiving the frame is a step that fires the
      clip. */
  ghost predicate ReachesPeer(sys: System, i: nat, frame: Frame, item: ClipItem, mailbox: bool, now: int, env: RecvEnv)
    requires |sys.nodes| == 2 && i < 2
  {
    var peer, e := sys.nodes[1 - i], Receiving(1 - i, frame, mailbox, now, env);
    && Authenticate(peer.cfg, frame) == Some(item)
    && (Live(peer.ep) && item.seqNo > peer.ep.mem.value.recv.lastSeq && Recorded(peer.ep, item, mailbox, now, env) ==>
          Enabled(sys, e) && Step(sys, e).nodes[1 - i].ep.fired == peer.ep.fired + [item])
  }

  /** Receiving the frame would fire the clip. */
  predicate WouldFire(n: Node, frame: Frame, item: ClipItem, mailbox: bool, now: int, env: RecvEnv)
  {
    Live(n.ep) && item.seqNo > n.ep.mem.value.recv.lastSeq && Recorded(n.ep, item, mailbox, now, env) ==>
      Receive(n.cfg, n.ep, frame, mailbox, now, env).ep.fired == n.ep.fired + [item]
  }

  lemma {:induction false} ArrivesAtNode(n: Node, peer: Node, minted: Minted, frame: Frame, item: ClipItem,
                                         mailbox: bool, now: int, env: RecvEnv)
    requires NodeInv(n, peer, minted) && NodeInv(peer, n, minted) && item in peer.ep.emitted
    requires Authenticate(n.cfg, frame) == Some(item)
    ensures WouldFire(n, frame, item, mailbox, now, env)
  {
    if Live(n.ep) && item.seqNo > n.ep.mem.value.recv.lastSeq {
      AboveMarkIsNew(n, peer, minted, item);
      FiresExactly(n.cfg, n.ep, frame, mailbox, now, env, item);
    }
  }

  lemma {:induction false} StepReceives(sys: System, j: nat, frame: Frame, mailbox: bool, now: int, env: RecvEnv)
    requires j < |sys.nodes| && Live(sys.nodes[j].ep) && Deliverable(sys, frame)
    ensures var e := Receiving(j, frame, mailbox, now, env);
            && Enabled(sys, e)
            && Step(sys, e).nodes[j].ep == Receive(sys.nodes[j].cfg, sys.nodes[j].ep, frame, mailbox, now, env).ep
  {
  }

  lemma {:induction false} BothSides(sys: System, i: nat)
    requires SysInv(sys) && i < 2
    ensures NodeInv(sys.nodes[1 - i], sys.nodes[i], sys.minted) && NodeInv(sys.nodes[i], sys.nodes[1 - i], sys.minted)
  {
    if i == 0 {
      assert NodeInv(sys.nodes[1], sys.nodes[0], sys.minted);
    } else {
      assert NodeInv(sys.nodes[0], sys.nodes[1], sys.minted);
    }
  }

  lemma {:induction false} ArrivesWith(sys: System, i: nat, frame: Frame, item: ClipItem, mailbox: bool, now: int,
                                       env: RecvEnv)
    requires |sys.nodes| == 2 && i < 2 && Deliverable(sys, frame)
    requires Authenticate(sys.nodes[1 - i].cfg, frame) == Some(item)
    requires WouldFire(sys.nodes[1 - i], frame, item, mailbox, now, env)
    ensures ReachesPeer(sys, i, frame, item, mailbox, now, env)
  {
    if Live(sys.nodes[1 - i].ep) {
      StepReceives(sys, 1 - i, frame, mailbox, now, env);
    }
  }

  lemma {:induction false} Arrives(sys: System, i: nat, frame: Frame, item: ClipItem, mailbox: bool, now: int,
                                   env: RecvEnv)
    requires SysInv(sys) && i < 2 && item in sys.nodes[i].ep.emitted && frame == Seal(sys.nodes[i].cfg, item)
    ensures ReachesPeer(sys, i, frame, item, mailbox, now, env)
  {
    SentIsDeliverable(sys, i, item, frame);
    BothSides(sys, i);
    ArrivesAtNode(sys.nodes[1 - i], sys.nodes[i], sys.minted, frame, item, mailbox, now, env);
    ArrivesWith(sys, i, frame, item, mailbox, now, env);
  }

  lemma {:induction false} Sent(sys: System, i: nat, content: H.Content, ts: int, id: H.Id, send: SendEnv)
    requires |sys.nodes| == 2 && Paired(sys.nodes[0].cfg, sys.nodes[1].cfg) && i < 2
    requires Enabled(sys, Sending(i, content, ts, id, send))
    requires Send(sys.nodes[i].cfg, sys.nodes[i].ep, content, ts, id, send).result.Ok?
    ensures var item := ClipItem(id, ts, sys.nodes[i].ep.mem.value.send.nextSeq, content);
            && item in Step(sys, Sending(i, content, ts, id, send)).nodes[i].ep.emitted
            && Send(sys.nodes[i].cfg, sys.nodes[i].ep, content, ts, id, send).result.value
               == Seal(sys.nodes[i].cfg, item)
  {
    SentFrameOpens(sys.nodes[i].cfg, sys.nodes[1 - i].cfg, sys.nodes[i].ep, content, ts, id, send);
  }

  /** End to end, the other half: in any run a device sends a clip successfully; whatever happens after, when the frame
      reaches the peer while the peer's mark is below its number, and both of the peer's transactions are durable, its
      history takes the clip and nothing stops it, the peer's clipboard callback fires with exactly that clip. */
  lemma {:induction false} SentIsDelivered(sys: System, before: seq<Event>, i: nat, content: H.Content, ts: int,
                                           id: H.Id, send: SendEnv, after: seq<Event>, mailbox: bool, now: int,
                                           recv: RecvEnv)
    requires Init(sys) && Legal(sys, before) && i < 2
    requires var sys1 := Run(sys, before);
             && Enabled(sys1, Sending(i, content, ts, id, send))
             && Send(sys1.nodes[i].cfg, sys1.nodes[i].ep, content, ts, id, send).result.Ok?
             && Legal(Step(sys1, Sending(i, content, ts, id, send)), after)
    ensures var sys1 := Run(sys, before);
            var frame := Send(sys1.nodes[i].cfg, sys1.nodes[i].ep, content, ts, id, send).result.value;
            var item := ClipItem(id, ts, sys1.nodes[i].ep.mem.value.send.nextSeq, content);
            var sys2 := Run(Step(sys1, Sending(i, content, ts, id, send)), after);
            ReachesPeer(sys2, i, frame, item, mailbox, now, recv)
  {
    var sys1 := Run(sys, before);
    InitEstablishesInv(sys);
    RunKeepsInv(sys, before);
    Sent(sys1, i, content, ts, id, send);
    StepKeepsInv(sys1, Sending(i, content, ts, id, send));
    var item := ClipItem(id, ts, sys1.nodes[i].ep.mem.value.send.nextSeq, content);
    var frame := Send(sys1.nodes[i].cfg, sys1.nodes[i].ep, content, ts, id, send).result.value;
    var sent := Step(sys1, Sending(i, content, ts, id, send));
    EmittedStays(sent, after, i, item);
    RunKeepsInv(sent, after);
    Arrives(Run(sent, after), i, frame, item, mailbox, now, recv);
  }
}

/** One end of an encrypted clipboard session: durable per-direction state, the sender's sequence
    reservation, the four-step receive transaction and the restart replay. An `Endpoint` is the
    device: its session document and history directory survive a crash, `mem` does not. The last
    three fields are logs of what the outside world saw. */
module Session {
  import opened Prelude
  import H = History
  import C = Crypto

  const SEEN_IDS_RING: nat := 64
  const LIVE_FRESH_WINDOW_MS: int := 5 * 60 * 1000
  const LIVE_FUTURE_SKEW_MS: int := 2 * 60 * 1000
  const MAX_IMAGE_BYTES: nat := 10 * 1024 * 1024
  const ECHO_RING: nat := 64

  datatype ClipItem = ClipItem(id: H.Id, ts: int, seqNo: nat, content: H.Content)

  /** A pending-history entry has the fields of a history addition. */
  type PendingItem = H.NewItem

  datatype Direction = Direction(generation: nat, nextSeq: nat, lastSeq: nat, seenIds: seq<H.Id>,
                                 pending: seq<PendingItem>)

  /** The session document; a missing file is the empty document. */
  type Doc = map<Bytes, Direction>

  datatype Config = Config(room: Bytes, selfFp: Bytes, peerFp: Bytes, generation: nat, keys: C.Keys)

  /** An ideal sealed envelope: it opens to `plain` under exactly this key and associated data.
      No plaintext means bytes that are not a valid envelope. */
  datatype Sealed = Sealed(key: Bytes, aad: Bytes, plain: Option<ClipItem>)

  datatype Frame = Frame(room: Bytes, sealed: Option<Sealed>)

  /** The echo hash of a text, ideal. */
  datatype Hash = TextHash(text: string)

  datatype Mem = Mem(send: Direction, recv: Direction, echo: seq<Hash>, accepted: seq<ClipItem>)

  datatype Endpoint = Endpoint(doc: Doc, hist: H.World, mem: Option<Mem>,
                               emitted: seq<ClipItem>, fired: seq<ClipItem>, acceptedOnDisk: seq<ClipItem>)

  datatype Error = Oversize | RecordMismatch | Io | Protocol | CryptoError | HistoryError | CallbackError
                 | InjectedFault

  datatype Outcome = LiveApplied | MailboxApplied | MailboxDeferred | Duplicate | Replay | Unauthenticated

  datatype Result<+T> = Ok(value: T) | Err(error: Error)

  datatype SendOut = SendOut(ep: Endpoint, result: Result<Frame>)

  datatype RecvOut = RecvOut(ep: Endpoint, result: Result<Outcome>)

  datatype StartOut = StartOut(ep: Endpoint, result: Result<()>)

  datatype SendEnv = SendEnv(reserve: Commit, stop: bool, encoded: bool, sealed: bool, add: H.AddEnv)

  datatype Callback = Applied | Deferred | Refused

  datatype Stage = DeliveryCommitted | HistoryAdded | PendingCleared | AppliedStage | SourcePromoted

  datatype RecvEnv = RecvEnv(deliver: Commit, add: H.AddEnv, clear: Commit, callback: Callback,
                             promote: H.Write, stop: Option<Stage>)

  datatype Presented = Presented(generation: nat, fp: Bytes)

  datatype StartEnv = StartEnv(open: H.OpenEnv, presented: Presented, keys: bool, loaded: bool,
                               adds: seq<H.AddEnv>, commit: Commit)

  // ---- Durable document ----

  function SendKey(cfg: Config): (k: Bytes)
  {
    C.DirectionKey(cfg.room, cfg.selfFp, cfg.peerFp)
  }

  function RecvKey(cfg: Config): (k: Bytes)
  {
    C.DirectionKey(cfg.room, cfg.peerFp, cfg.selfFp)
  }

  function NewDirection(generation: nat): (d: Direction)
  {
    Direction(generation, 1, 0, [], [])
  }

  function LoadDirection(doc: Doc, key: Bytes, generation: nat): (d: Direction)
  {
    if key in doc && doc[key].generation == generation then doc[key] else NewDirection(generation)
  }

  function Written(doc: Doc, key: Bytes, state: Direction, commit: Commit): (doc': Doc)
  {
    if commit.FailedOld? then doc else doc[key := state]
  }

  /** The documents agree everywhere but possibly at `key`. */
  predicate SameOutside(doc: Doc, doc': Doc, key: Bytes)
  {
    doc - {key} == doc' - {key}
  }

  lemma {:induction false} OutsideAgrees(doc: Doc, doc': Doc, key: Bytes, k: Bytes)
    requires SameOutside(doc, doc', key) && k != key
    ensures k in doc' <==> k in doc
    ensures k in doc ==> doc'[k] == doc[k]
  {
    assert k in doc <==> k in doc - {key};
    assert k in doc' <==> k in doc' - {key};
    assert k in doc ==> (doc - {key})[k] == doc[k] && (doc' - {key})[k] == doc'[k];
  }

  /** Fingerprints are hex, so they never hold the key separator. */
  predicate ValidConfig(cfg: Config)
  {
    && cfg.selfFp != cfg.peerFp
    && 58 !in cfg.room && 58 !in cfg.selfFp && 58 !in cfg.peerFp
    && 0 !in cfg.room && 0 !in cfg.selfFp && 0 !in cfg.peerFp
  }

  lemma {:induction false} KeysDiffer(cfg: Config)
    requires ValidConfig(cfg)
    ensures SendKey(cfg) != RecvKey(cfg)
  {
    if SendKey(cfg) == RecvKey(cfg) {
      C.JoinedInjective(cfg.room, cfg.selfFp, cfg.peerFp, cfg.room, cfg.peerFp, cfg.selfFp, 58);
    }
  }

  // ---- Sending ----

  predicate Live(ep: Endpoint)
  {
    ep.mem.Some? && ep.hist.items.Some?
  }

  function Seal(cfg: Config, item: ClipItem): (f: Frame)
  {
    Frame(cfg.room, Some(Sealed(cfg.keys.send, C.Aad(cfg.room, cfg.selfFp, cfg.peerFp), Some(item))))
  }

  function Echoed(echo: seq<Hash>, hash: Hash): (r: seq<Hash>)
  {
    if hash in echo then echo else LastN(echo + [hash], ECHO_RING)
  }

  function EchoContent(echo: seq<Hash>, content: H.Content): (r: seq<Hash>)
  {
    if content.Text? then Echoed(echo, TextHash(content.text)) else echo
  }

  /** Writes the next counter; the session moves on only if the write is durable. */
  function Reserve(cfg: Config, ep: Endpoint, commit: Commit): (r: Endpoint)
    requires Live(ep)
  {
    var m := ep.mem.value;
    var reserved := m.send.(nextSeq := m.send.nextSeq + 1);
    ep.(doc := Written(ep.doc, SendKey(cfg), reserved, commit),
        mem := if commit.Durable? then Some(m.(send := reserved)) else ep.mem)
  }

  function Emit(ep: Endpoint, item: ClipItem): (r: Endpoint)
    requires Live(ep)
  {
    ep.(emitted := ep.emitted + [item],
        mem := Some(ep.mem.value.(echo := EchoContent(ep.mem.value.echo, item.content))))
  }

  /** Reserve durably, then seal, then record locally; the frame leaves only at the very end. */
  function Send(cfg: Config, ep: Endpoint, content: H.Content, ts: int, id: H.Id, env: SendEnv): (r: SendOut)
    requires Live(ep)
    ensures Live(r.ep)
    ensures r.ep == ep.(doc := r.ep.doc, hist := r.ep.hist, mem := r.ep.mem, emitted := r.ep.emitted)
    ensures r.ep.mem.value == ep.mem.value.(send := r.ep.mem.value.send, echo := r.ep.mem.value.echo)
    ensures r.ep.emitted == ep.emitted
            || r.ep.emitted == ep.emitted + [ClipItem(id, ts, ep.mem.value.send.nextSeq, content)]
    ensures SameOutside(ep.doc, r.ep.doc, SendKey(cfg))
    ensures r.result.Ok? <==> r.ep.emitted != ep.emitted
  {
    var m := ep.mem.value;
    if content.Image? && |content.bytes| > MAX_IMAGE_BYTES then SendOut(ep, Err(Oversize))
    else if m.send.nextSeq >= U64_MAX then SendOut(ep, Err(RecordMismatch))
    else
      var ep2 := Reserve(cfg, ep, env.reserve);
      if !env.reserve.Durable? then SendOut(ep2, Err(Io))
      else if env.stop then SendOut(ep2, Err(InjectedFault))
      else if !env.encoded then SendOut(ep2, Err(Protocol))
      else if !env.sealed then SendOut(ep2, Err(CryptoError))
      else
        var added := H.Add(ep.hist, H.NewItem(id, ts, H.Local, content), env.add);
        var ep3 := ep2.(hist := added.world);
        if !added.status.Ok? then SendOut(ep3, Err(HistoryError))
        else
          var item := ClipItem(id, ts, m.send.nextSeq, content);
          SendOut(Emit(ep3, item), Ok(Seal(cfg, item)))
  }

  // ---- Receiving ----

  /** Opens a frame under the receive key and the peer-to-self associated data. */
  function Authenticate(cfg: Config, frame: Frame): (item: Option<ClipItem>)
  {
    if frame.room != cfg.room || frame.sealed.None? then None
    else if frame.sealed.value.key != cfg.keys.recv
         || frame.sealed.value.aad != C.Aad(cfg.room, cfg.peerFp, cfg.selfFp) then None
    else frame.sealed.value.plain
  }

  predicate Fresh(item: ClipItem, mailbox: bool, now: int)
  {
    !mailbox && item.ts >= now - LIVE_FRESH_WINDOW_MS && item.ts <= now + LIVE_FUTURE_SKEW_MS
  }

  function Accepted(d: Direction, item: ClipItem, source: H.Source): (d': Direction)
  {
    d.(lastSeq := if d.lastSeq < item.seqNo then item.seqNo else d.lastSeq,
       seenIds := LastN(d.seenIds + [item.id], SEEN_IDS_RING),
       pending := d.pending + [H.NewItem(item.id, item.ts, source, item.content)])
  }

  function Without(pending: seq<PendingItem>, id: H.Id): (r: seq<PendingItem>)
  {
    if pending == [] then []
    else if pending[0].id != id then [pending[0]] + Without(pending[1..], id)
    else Without(pending[1..], id)
  }

  function Receive(cfg: Config, ep: Endpoint, frame: Frame, mailbox: bool, now: int, env: RecvEnv): (r: RecvOut)
    requires Live(ep)
    ensures Live(r.ep) && r.ep.emitted == ep.emitted
    ensures SameOutside(ep.doc, r.ep.doc, RecvKey(cfg))
    ensures r.ep.mem.value.accepted == ep.mem.value.accepted
            || (Authenticate(cfg, frame).Some? && env.deliver.Durable?
                && r.ep.mem.value.accepted == ep.mem.value.accepted + [Authenticate(cfg, frame).value])
  {
    match Authenticate(cfg, frame)
    case None => RecvOut(ep, Ok(Unauthenticated))
    case Some(item) =>
      if item.id in ep.mem.value.recv.seenIds then RecvOut(ep, Ok(Duplicate))
      else if item.seqNo <= ep.mem.value.recv.lastSeq then RecvOut(ep, Ok(Replay))
      else Deliver(cfg, ep, item, Fresh(item, mailbox, now), env)
  }

  function SourceOf(live: bool): (s: H.Source)
  {
    if live then H.Remote else H.RemoteDeferred
  }

  function CommitDelivery(cfg: Config, ep: Endpoint, item: ClipItem, live: bool, commit: Commit): (r: Endpoint)
    requires Live(ep)
  {
    var m := ep.mem.value;
    var committed := Accepted(m.recv, item, SourceOf(live));
    var accepted := m.accepted + [item];
    ep.(doc := Written(ep.doc, RecvKey(cfg), committed, commit),
        acceptedOnDisk := if commit.FailedOld? then ep.acceptedOnDisk else accepted,
        mem := if commit.Durable? then Some(m.(recv := committed, accepted := accepted)) else ep.mem)
  }

  /** Step 1: one transaction records the high-water mark, the id and the pending entry. */
  function Deliver(cfg: Config, ep: Endpoint, item: ClipItem, live: bool, env: RecvEnv): (r: RecvOut)
    requires Live(ep)
    ensures Live(r.ep) && r.ep.emitted == ep.emitted
    ensures r.ep.mem.value.send == ep.mem.value.send
    ensures r.ep.mem.value.accepted == ep.mem.value.accepted + (if env.deliver.Durable? then [item] else [])
    ensures r.ep.acceptedOnDisk == ep.acceptedOnDisk || r.ep.acceptedOnDisk == ep.mem.value.accepted + [item]
    ensures SameOutside(ep.doc, r.ep.doc, RecvKey(cfg))
    ensures r.ep.fired != ep.fired ==>
              var committed := Accepted(ep.mem.value.recv, item, SourceOf(live));
              var added := H.Add(ep.hist, H.NewItem(item.id, item.ts, SourceOf(live), item.content), env.add);
              && env.deliver.Durable? && env.clear.Durable? && r.ep.fired == ep.fired + [item]
              && r.ep.doc == ep.doc[RecvKey(cfg) := committed.(pending := Without(committed.pending, item.id))]
              && added.status.Ok? && r.ep.hist.added == added.world.added
    ensures r.result != Ok(Duplicate) && r.result != Ok(Replay)
  {
    var ep2 := CommitDelivery(cfg, ep, item, live, env.deliver);
    if !env.deliver.Durable? then RecvOut(ep2, Err(Io))
    else if env.stop == Some(DeliveryCommitted) then RecvOut(ep2, Err(InjectedFault))
    else Record(cfg, ep2, item, live, env)
  }

  /** Step 2: idempotent history addition. */
  function Record(cfg: Config, ep: Endpoint, item: ClipItem, live: bool, env: RecvEnv): (r: RecvOut)
    requires Live(ep)
    ensures Live(r.ep)
    ensures r.ep == ep.(doc := r.ep.doc, fired := r.ep.fired, hist := r.ep.hist, mem := r.ep.mem)
    ensures r.ep.mem.value == ep.mem.value.(echo := r.ep.mem.value.echo, recv := r.ep.mem.value.recv)
    ensures SameOutside(ep.doc, r.ep.doc, RecvKey(cfg))
    ensures r.ep.fired != ep.fired ==>
              var added := H.Add(ep.hist, H.NewItem(item.id, item.ts, SourceOf(live), item.content), env.add);
              && env.clear.Durable? && r.ep.fired == ep.fired + [item]
              && var cleared := Without(ep.mem.value.recv.pending, item.id);
              && r.ep.doc == ep.doc[RecvKey(cfg) := ep.mem.value.recv.(pending := cleared)]
              && added.status.Ok? && r.ep.hist.added == added.world.added
    ensures r.result != Ok(Duplicate) && r.result != Ok(Replay)
  {
    var added := H.Add(ep.hist, H.NewItem(item.id, item.ts, SourceOf(live), item.content), env.add);
    var ep3 := ep.(hist := added.world);
    if !added.status.Ok? then RecvOut(ep3, Err(HistoryError))
    else if env.stop == Some(HistoryAdded) then RecvOut(ep3, Err(InjectedFault))
    else Settle(cfg, ep3, item, live, env)
  }

  function CommitClear(cfg: Config, ep: Endpoint, id: H.Id, commit: Commit): (r: Endpoint)
    requires Live(ep)
  {
    var m := ep.mem.value;
    var cleared := m.recv.(pending := Without(m.recv.pending, id));
    ep.(doc := Written(ep.doc, RecvKey(cfg), cleared, commit),
        mem := if commit.Durable? then Some(m.(recv := cleared)) else ep.mem)
  }

  /** Step 3: a second transaction clears the pending entry. */
  function Settle(cfg: Config, ep: Endpoint, item: ClipItem, live: bool, env: RecvEnv): (r: RecvOut)
    requires Live(ep)
    ensures Live(r.ep) && r.ep.hist.added == ep.hist.added
    ensures r.ep == ep.(doc := r.ep.doc, fired := r.ep.fired, hist := r.ep.hist, mem := r.ep.mem)
    ensures r.ep.mem.value == ep.mem.value.(echo := r.ep.mem.value.echo, recv := r.ep.mem.value.recv)
    ensures SameOutside(ep.doc, r.ep.doc, RecvKey(cfg))
    ensures r.ep.fired != ep.fired ==>
              && env.clear.Durable? && r.ep.fired == ep.fired + [item]
              && var cleared := Without(ep.mem.value.recv.pending, item.id);
              && r.ep.doc == ep.doc[RecvKey(cfg) := ep.mem.value.recv.(pending := cleared)]
    ensures r.result != Ok(Duplicate) && r.result != Ok(Replay)
  {
    var ep5 := CommitClear(cfg, ep, item.id, env.clear);
    if !env.clear.Durable? then RecvOut(ep5, Err(Io))
    else if env.stop == Some(PendingCleared) then RecvOut(ep5, Err(InjectedFault))
    else Fire(ep5, item, live, env)
  }

  /** Step 4: the clipboard callback, then the promotion of an applied mailbox clip. */
  function Fire(ep: Endpoint, item: ClipItem, live: bool, env: RecvEnv): (r: RecvOut)
    requires Live(ep)
    ensures Live(r.ep) && r.ep.hist.added == ep.hist.added
    ensures r.ep == ep.(fired := ep.fired + [item], hist := r.ep.hist, mem := r.ep.mem)
    ensures r.ep.mem.value == ep.mem.value.(echo := r.ep.mem.value.echo)
    ensures r.result != Ok(Duplicate) && r.result != Ok(Replay)
  {
    var m := ep.mem.value;
    var ep6 := ep.(fired := ep.fired + [item]);
    var echoed := m.(echo := EchoContent(m.echo, item.content));
    if env.callback.Refused? then RecvOut(ep6, Err(CallbackError))
    else if live then RecvOut(ep6.(mem := Some(echoed)), Ok(LiveApplied))
    else if env.callback.Deferred? then RecvOut(ep6, Ok(MailboxDeferred))
    else if env.stop == Some(AppliedStage) then RecvOut(ep6, Err(InjectedFault))
    else
      var promoted := H.SetSource(ep.hist, item.id, H.Remote, env.promote);
      var ep7 := ep6.(hist := promoted.world);
      if !promoted.status.Ok? then RecvOut(ep7, Err(HistoryError))
      else if env.stop == Some(SourcePromoted) then RecvOut(ep7, Err(InjectedFault))
      else RecvOut(ep7.(mem := Some(echoed)), Ok(MailboxApplied))
  }

  // ---- Restarting ----

  function ReplayPending(w: H.World, pending: seq<PendingItem>, adds: seq<H.AddEnv>): (r: H.Out)
    requires w.items.Some? && |adds| >= |pending|
    decreases |pending|
  {
    if pending == [] then H.Out(w, H.Ok)
    else
      var first := H.Add(w, pending[0], adds[0]);
      if !first.status.Ok? then first
      else ReplayPending(first.world, pending[1..], adds[1..])
  }

  function Down(ep: Endpoint): (r: Endpoint)
  {
    ep.(mem := None, hist := ep.hist.(items := None))
  }

  /** Opens the history and the session document, replays pending entries into the history, clears
      them durably and only then hands out a session. No callback runs. */
  function Start(cfg: Config, ep: Endpoint, env: StartEnv): (r: StartOut)
    requires |env.adds| >= |LoadDirection(ep.doc, RecvKey(cfg), cfg.generation).pending|
    ensures r.ep == ep.(doc := r.ep.doc, hist := r.ep.hist, mem := r.ep.mem)
    ensures r.result.Ok? <==> r.ep.mem.Some?
    ensures r.ep.mem.Some? ==> r.ep.mem.value.accepted == ep.acceptedOnDisk
    ensures SameOutside(ep.doc, r.ep.doc, RecvKey(cfg))
  {
    var reopened := H.Open(ep.hist, env.open);
    var ep1 := Down(ep.(hist := reopened.world));
    if !reopened.status.Ok? then StartOut(ep1, Err(HistoryError))
    else if cfg.generation != env.presented.generation || cfg.selfFp != env.presented.fp
         || cfg.selfFp == cfg.peerFp then StartOut(ep1, Err(RecordMismatch))
    else if !env.keys then StartOut(ep1, Err(CryptoError))
    else if !env.loaded then StartOut(ep1, Err(Io))
    else
      var send := LoadDirection(ep.doc, SendKey(cfg), cfg.generation);
      var recv := LoadDirection(ep.doc, RecvKey(cfg), cfg.generation);
      if recv.pending == [] then
        StartOut(ep.(hist := reopened.world, mem := Some(Mem(send, recv, [], ep.acceptedOnDisk))), Ok(()))
      else
        var replayed := ReplayPending(reopened.world, recv.pending, env.adds);
        var settled := recv.(pending := []);
        if !replayed.status.Ok? then StartOut(Down(ep.(hist := replayed.world)), Err(HistoryError))
        else
          var ep2 := ep.(hist := replayed.world, doc := Written(ep.doc, RecvKey(cfg), settled, env.commit));
          if !env.commit.Durable? then StartOut(Down(ep2), Err(Io))
          else StartOut(ep2.(mem := Some(Mem(send, settled, [], ep.acceptedOnDisk))), Ok(()))
  }

  /** The user applies a deferred entry by hand. */
  function ApplyDeferred(ep: Endpoint, id: H.Id, persist: H.Write): (r: StartOut)
    requires Live(ep)
    ensures Live(r.ep) && r.ep.hist == H.SetSource(ep.hist, id, H.Remote, persist).world
    ensures r.ep == ep.(hist := r.ep.hist, mem := Some(ep.mem.value.(echo := r.ep.mem.value.echo)))
  {
    var promoted := H.SetSource(ep.hist, id, H.Remote, persist);
    var ep1 := ep.(hist := promoted.world);
    if !promoted.status.Ok? then StartOut(ep1, Err(HistoryError))
    else
      var items := promoted.world.items.value;
      var i := H.Position(items, id);
      var m := ep.mem.value;
      if i < |items| && items[i].kind.TextKind? then
        StartOut(ep1.(mem := Some(m.(echo := Echoed(m.echo, TextHash(items[i].kind.content))))), Ok(()))
      else StartOut(ep1, Ok(()))
  }

  function ClearHistory(ep: Endpoint, persist: H.Write, stuck: set<H.FileName>): (r: StartOut)
    requires Live(ep)
  {
    var cleared := H.Clear(ep.hist, persist, stuck);
    StartOut(ep.(hist := cleared.world), if cleared.status.Ok? then Ok(()) else Err(HistoryError))
  }
}

/** The session as the program runs it: objects updated statement by statement, each operation
    proved to have exactly the effect of its specification in `Session`. */
module SessionEngine {
  import opened Prelude
  import opened Session
  import H = History

  /** Owner of the session document file. */
  class SessionStore {
    var doc: Doc

    constructor (doc: Doc)
      ensures this.doc == doc
    {
      this.doc := doc;
    }

    /** One transaction: read the document, replace one direction, write it back atomically. */
    method CommitDirection(key: Bytes, state: Direction, commit: Commit) returns (ok: bool)
      modifies this
      ensures doc == Written(old(doc), key, state, commit)
      ensures ok <==> commit.Durable?
    {
      var document := doc;
      document := document[key := state];
      if commit.FailedOld? {
        return false;
      }
      doc := document;
      return commit.Durable?;
    }

    method ReadDirection(key: Bytes, generation: nat) returns (state: Direction)
      ensures state == LoadDirection(doc, key, generation)
    {
      if key in doc && doc[key].generation == generation {
        return doc[key];
      }
      return NewDirection(generation);
    }
  }

  class ClipSession {
    const cfg: Config
    const store: SessionStore
    const history: H.HistoryStore
    var sendState: Direction
    var recvState: Direction
    var echo: seq<Hash>
    ghost var accepted: seq<ClipItem>
    ghost var emitted: seq<ClipItem>
    ghost var fired: seq<ClipItem>
    ghost var acceptedOnDisk: seq<ClipItem>

    ghost function View(): (ep: Endpoint)
      reads this, store, history
    {
      Endpoint(store.doc, history.View(), Some(Mem(sendState, recvState, echo, accepted)),
               emitted, fired, acceptedOnDisk)
    }

    constructor (cfg: Config, store: SessionStore, history: H.HistoryStore, send: Direction, recv: Direction,
                 ghost emitted: seq<ClipItem>, ghost fired: seq<ClipItem>, ghost acceptedOnDisk: seq<ClipItem>)
      ensures this.cfg == cfg && this.store == store && this.history == history
      ensures View() == Endpoint(store.doc, history.View(), Some(Mem(send, recv, [], acceptedOnDisk)),
                                 emitted, fired, acceptedOnDisk)
    {
      this.cfg := cfg;
      this.store := store;
      this.history := history;
      this.sendState := send;
      this.recvState := recv;
      this.echo := [];
      this.accepted := acceptedOnDisk;
      this.emitted := emitted;
      this.fired := fired;
      this.acceptedOnDisk := acceptedOnDisk;
    }

    method RegisterEcho(hash: Hash)
      modifies this`echo
      ensures echo == Echoed(old(echo), hash)
    {
      if hash in echo {
        return;
      }
      echo := echo + [hash];
      while |echo| > ECHO_RING
        invariant LastN(echo, ECHO_RING) == LastN(old(echo) + [hash], ECHO_RING)
      {
        echo := echo[1..];
      }
    }

    method SendClip(content: H.Content, ts: int, id: H.Id, env: SendEnv) returns (result: Result<Frame>)
      modifies this, store, history
      ensures SendOut(View(), result) == Send(cfg, old(View()), content, ts, id, env)
    {
      if content.Image? && |content.bytes| > MAX_IMAGE_BYTES {
        return Err(Oversize);
      }
      var number := sendState.nextSeq;
      if number >= U64_MAX {
        return Err(RecordMismatch);
      }
      var reserved := sendState.(nextSeq := number + 1);
      var ok := store.CommitDirection(SendKey(cfg), reserved, env.reserve);
      if !ok {
        return Err(Io);
      }
      sendState := reserved;
      if env.stop {
        return Err(InjectedFault);
      }
      if !env.encoded {
        return Err(Protocol);
      }
      if !env.sealed {
        return Err(CryptoError);
      }
      var item := ClipItem(id, ts, number, content);
      var status := history.AddItem(H.NewItem(id, ts, H.Local, content), env.add);
      if !status.Ok? {
        return Err(HistoryError);
      }
      if content.Text? {
        RegisterEcho(TextHash(content.text));
      }
      emitted := emitted + [item];
      return Ok(Seal(cfg, item));
    }

    /** Removes the entries with this id, keeping the others in order. */
    static method Retain(pending: seq<PendingItem>, id: H.Id) returns (kept: seq<PendingItem>)
      ensures kept == Without(pending, id)
    {
      kept := [];
      for i := 0 to |pending|
        invariant kept + Without(pending[i..], id) == Without(pending, id)
      {
        assert pending[i..][0] == pending[i] && pending[i..][1..] == pending[i + 1..];
        if pending[i].id != id {
          kept := kept + [pending[i]];
        }
      }
    }

    method HandleClip(frame: Frame, mailbox: bool, now: int, env: RecvEnv) returns (result: Result<Outcome>)
      modifies this, store, history
      ensures RecvOut(View(), result) == Receive(cfg, old(View()), frame, mailbox, now, env)
    {
      var opening := Authenticate(cfg, frame);
      if opening.None? {
        return Ok(Unauthenticated);
      }
      var item := opening.value;
      if item.id in recvState.seenIds {
        return Ok(Duplicate);
      }
      if item.seqNo <= recvState.lastSeq {
        return Ok(Replay);
      }
      result := Transact(item, Fresh(item, mailbox, now), env);
    }

    method Transact(item: ClipItem, live: bool, env: RecvEnv) returns (result: Result<Outcome>)
      modifies this, store, history
      ensures RecvOut(View(), result) == Deliver(cfg, old(View()), item, live, env)
    {
      // Step 1: one transaction for the mark, the id and the pending entry.
      var committed := recvState;
      if committed.lastSeq < item.seqNo {
        committed := committed.(lastSeq := item.seqNo);
      }
      committed := committed.(seenIds := committed.seenIds + [item.id]);
      if |committed.seenIds| > SEEN_IDS_RING {
        committed := committed.(seenIds := committed.seenIds[|committed.seenIds| - SEEN_IDS_RING..]);
      }
      var entry := H.NewItem(item.id, item.ts, SourceOf(live), item.content);
      committed := committed.(pending := committed.pending + [entry]);
      var ok := store.CommitDirection(RecvKey(cfg), committed, env.deliver);
      if !env.deliver.FailedOld? {
        acceptedOnDisk := accepted + [item];
      }
      if !ok {
        return Err(Io);
      }
      recvState := committed;
      accepted := accepted + [item];
      if env.stop == Some(DeliveryCommitted) {
        return Err(InjectedFault);
      }
      result := AddToHistory(item, live, env);
    }

    method AddToHistory(item: ClipItem, live: bool, env: RecvEnv) returns (result: Result<Outcome>)
      modifies this, store, history
      ensures RecvOut(View(), result) == Record(cfg, old(View()), item, live, env)
    {
      // Step 2: idempotent history addition.
      var status := history.AddItem(H.NewItem(item.id, item.ts, SourceOf(live), item.content), env.add);
      if !status.Ok? {
        return Err(HistoryError);
      }
      if env.stop == Some(HistoryAdded) {
        return Err(InjectedFault);
      }
      result := ClearEntry(item, live, env);
    }

    method ClearEntry(item: ClipItem, live: bool, env: RecvEnv) returns (result: Result<Outcome>)
      modifies this, store, history
      ensures RecvOut(View(), result) == Settle(cfg, old(View()), item, live, env)
    {
      // Step 3: a second transaction clears the pending entry.
      var kept := Retain(recvState.pending, item.id);
      var cleared := recvState.(pending := kept);
      var ok := store.CommitDirection(RecvKey(cfg), cleared, env.clear);
      if !ok {
        return Err(Io);
      }
      recvState := cleared;
      if env.stop == Some(PendingCleared) {
        return Err(InjectedFault);
      }
      // Step 4: only now the clipboard callback.
      result := Invoke(item, live, env);
    }

    method Invoke(item: ClipItem, live: bool, env: RecvEnv) returns (result: Result<Outcome>)
      modifies this, history
      ensures RecvOut(View(), result) == Fire(old(View()), item, live, env)
    {
      fired := fired + [item];
      if env.callback.Refused? {
        return Err(CallbackError);
      }
      if live {
        if item.content.Text? {
          RegisterEcho(TextHash(item.content.text));
        }
        return Ok(LiveApplied);
      }
      if env.callback.Deferred? {
        return Ok(MailboxDeferred);
      }
      if env.stop == Some(AppliedStage) {
        return Err(InjectedFault);
      }
      var status := history.Promote(item.id, H.Remote, env.promote);
      if !status.Ok? {
        return Err(HistoryError);
      }
      if env.stop == Some(SourcePromoted) {
        return Err(InjectedFault);
      }
      if item.content.Text? {
        RegisterEcho(TextHash(item.content.text));
      }
      return Ok(MailboxApplied);
    }

    method Apply(id: H.Id, persist: H.Write) returns (result: Result<()>)
      modifies this, history
      ensures StartOut(View(), result) == ApplyDeferred(old(View()), id, persist)
    {
      var status := history.Promote(id, H.Remote, persist);
      if !status.Ok? {
        return Err(HistoryError);
      }
      var i := H.Position(history.items, id);
      if i < |history.items| && history.items[i].kind.TextKind? {
        RegisterEcho(TextHash(history.items[i].kind.content));
      }
      return Ok(());
    }

    method Clear(persist: H.Write, stuck: set<H.FileName>) returns (result: Result<()>)
      modifies history
      ensures StartOut(View(), result) == ClearHistory(old(View()), persist, stuck)
    {
      var status := history.ClearAll(persist, stuck);
      return if status.Ok? then Ok(()) else Err(HistoryError);
    }
  }

  /** Adds the pending entries one by one, stopping at the first failure. */
  method ReplayInto(history: H.HistoryStore, pending: seq<PendingItem>, adds: seq<H.AddEnv>) returns (ok: bool)
    requires |adds| >= |pending|
    modifies history
    ensures var r := ReplayPending(old(history.View()), pending, adds);
            history.View() == r.world && (ok <==> r.status.Ok?)
  {
    var i := 0;
    while i < |pending|
      invariant 0 <= i <= |pending|
      invariant ReplayPending(history.View(), pending[i..], adds[i..])
                == ReplayPending(old(history.View()), pending, adds)
    {
      assert pending[i..][0] == pending[i] && pending[i..][1..] == pending[i + 1..];
      assert adds[i..][0] == adds[i] && adds[i..][1..] == adds[i + 1..];
      var status := history.AddItem(pending[i], adds[i]);
      if !status.Ok? {
        return false;
      }
      i := i + 1;
    }
    return true;
  }

  /** Opens the device's history and document, replays what is pending and starts a session, or
      reports why not. What is left on disk is that of `Start` in either case. */
  method NewSession(cfg: Config, store: SessionStore, history: H.HistoryStore, env: StartEnv,
                    ghost emitted: seq<ClipItem>, ghost fired: seq<ClipItem>, ghost acceptedOnDisk: seq<ClipItem>)
    returns (session: ClipSession?, result: Result<()>)
    requires |env.adds| >= |LoadDirection(store.doc, RecvKey(cfg), cfg.generation).pending|
    modifies store, history
    ensures var before := Endpoint(old(store.doc), H.World(old(history.dir), None, old(history.added)), None,
                                   emitted, fired, acceptedOnDisk);
            var r := Start(cfg, before, env);
            && result == r.result && (session != null <==> result.Ok?)
            && store.doc == r.ep.doc && history.dir == r.ep.hist.dir && history.added == r.ep.hist.added
            && (session != null ==> session.store == store && session.history == history && session.View() == r.ep)
  {
    session := null;
    var status := history.Reopen(env.open);
    if !status.Ok? {
      return null, Err(HistoryError);
    }
    if cfg.generation != env.presented.generation || cfg.selfFp != env.presented.fp || cfg.selfFp == cfg.peerFp {
      return null, Err(RecordMismatch);
    }
    if !env.keys {
      return null, Err(CryptoError);
    }
    if !env.loaded {
      return null, Err(Io);
    }
    var send := store.ReadDirection(SendKey(cfg), cfg.generation);
    var recv := store.ReadDirection(RecvKey(cfg), cfg.generation);
    if recv.pending != [] {
      var replayed := ReplayInto(history, recv.pending, env.adds);
      if !replayed {
        return null, Err(HistoryError);
      }
      recv := recv.(pending := []);
      var ok := store.CommitDirection(RecvKey(cfg), recv, env.commit);
      if !ok {
        return null, Err(Io);
      }
    }
    session := new ClipSession(cfg, store, history, send, recv, emitted, fired, acceptedOnDisk);
    return session, Ok(());
  }
}

/** Pairing on a device: the offerer's and the claimer's half of the exchange, confirmation by comparing six
    digits, the durable pairing record, and the reset that rotates the identity. Reset and confirmation are
    steps, so they may interleave and the process may stop between any two. */
module Pairing {
  import opened Prelude
  import C = Crypto

  // ---- The exchange ----

  datatype Error = InvalidServer | InvalidCode | SameIdentity | ServerMismatch | BundleMismatch

  datatype Result<+T> = Ok(value: T) | Err(error: Error)

  datatype Qr = Qr(server: string, code: string, bundle: C.Bundle, nonce: Bytes)

  function StripPrefix(text: string, prefix: string): (rest: Option<string>)
  {
    if |prefix| <= |text| && text[..|prefix|] == prefix then Some(text[|prefix|..]) else None
  }

  /** The part before the first slash, question mark or hash. */
  function Authority(text: string): (authority: string)
  {
    if text == "" || text[0] in "/?#" then "" else [text[0]] + Authority(text[1..])
  }

  predicate Printable(c: char)
  {
    32 < c as int && c as int != 127
  }

  /** Debug builds also admit unencrypted relays. */
  predicate ValidServer(server: string, debug: bool)
  {
    var tls, plain := StripPrefix(server, "wss://"), StripPrefix(server, "ws://");
    && (tls.Some? || (debug && plain.Some?))
    && var authority := Authority(if tls.Some? then tls.value else plain.value);
    && authority != "" && '@' !in authority && '#' !in server && forall c :: c in server ==> Printable(c)
  }

  predicate ValidCode(code: string)
  {
    |code| == 6 && forall c :: c in code ==> 'A' <= c <= 'Z' || '0' <= c <= '9'
  }

  datatype Candidate = Candidate(generation: nat, server: string, local: C.Bundle, peer: C.Bundle)

  /** The offerer takes whatever bundle the relay hands it, as long as it is not its own. */
  function Offer(suite: C.Suite, debug: bool, self: C.Identity, qr: Qr, peer: C.Bundle): (r: Result<Candidate>)
  {
    var local := C.PublicBundle(suite, self);
    if !ValidServer(qr.server, debug) then Err(InvalidServer)
    else if !ValidCode(qr.code) then Err(InvalidCode)
    else if qr.bundle != local then Err(BundleMismatch)
    else if C.Fingerprint(suite, local) == C.Fingerprint(suite, peer) then Err(SameIdentity)
    else Ok(Candidate(self.generation, qr.server, local, peer))
  }

  /** The claimer pins relay and peer to the scanned code. */
  function Claim(suite: C.Suite, debug: bool, self: C.Identity, qr: Qr, server: string, peer: C.Bundle):
    (r: Result<Candidate>)
  {
    var local := C.PublicBundle(suite, self);
    if !ValidServer(qr.server, debug) then Err(InvalidServer)
    else if !ValidCode(qr.code) then Err(InvalidCode)
    else if C.Fingerprint(suite, local) == C.Fingerprint(suite, qr.bundle) then Err(SameIdentity)
    else if server != qr.server then Err(ServerMismatch)
    else if peer != qr.bundle then Err(BundleMismatch)
    else Ok(Candidate(self.generation, qr.server, local, qr.bundle))
  }

  function Sas(suite: C.Suite, nonce: Bytes, c: Candidate): (digits: string)
    requires |suite.hash(C.SAS_DOMAIN + nonce + C.PairBytes(c.local, c.peer))| >= 4
  {
    C.SasCode(suite, nonce, c.local, c.peer)
  }

  /** Whatever the relay does, a claimer that gets past the exchange is paired with the scanned identity over
      the scanned relay. */
  lemma {:induction false} ClaimerIsPinned(suite: C.Suite, debug: bool, self: C.Identity, qr: Qr, server: string,
                                           peer: C.Bundle)
    requires Claim(suite, debug, self, qr, server, peer).Ok?
    ensures var c := Claim(suite, debug, self, qr, server, peer).value;
            c.peer == qr.bundle && c.server == qr.server && c.local == C.PublicBundle(suite, self) && c.local != c.peer
  {
  }

  /** With an honest relay both sides reach confirmation together, see the same digits and derive the same
      room, each the other's peer. */
  lemma {:induction false} HonestExchangeAgrees(suite: C.Suite, debug: bool, a: C.Identity, b: C.Identity, qr: Qr)
    requires C.Sound(suite) && qr.bundle == C.PublicBundle(suite, a)
    ensures var pa, pb := C.PublicBundle(suite, a), C.PublicBundle(suite, b);
            var offer, claim := Offer(suite, debug, a, qr, pb), Claim(suite, debug, b, qr, qr.server, pa);
            && (offer.Ok? <==> claim.Ok?)
            && (offer.Ok? ==>
                  && offer.value.peer == claim.value.local && claim.value.peer == offer.value.local
                  && Sas(suite, qr.nonce, offer.value) == Sas(suite, qr.nonce, claim.value)
                  && C.RoomId(suite, offer.value.local, offer.value.peer)
                     == C.RoomId(suite, claim.value.local, claim.value.peer))
  {
    var pa, pb := C.PublicBundle(suite, a), C.PublicBundle(suite, b);
    C.RoomAndSasSymmetric(suite, qr.nonce, pa, pb);
  }

  /** A relay that hands the offerer another bundle than the claimer's makes the two sides hash different
      inputs for their digits. */
  lemma {:induction false} SubstitutionChangesDigitsInput(suite: C.Suite, qr: Qr, offer: Candidate, claim: Candidate)
    requires C.WellFormed(offer.local) && C.WellFormed(offer.peer) && C.WellFormed(claim.local)
             && C.WellFormed(claim.peer)
    requires claim.peer == offer.local && offer.peer != claim.local && claim.local != claim.peer
    ensures C.SAS_DOMAIN + qr.nonce + C.PairBytes(offer.local, offer.peer)
            != C.SAS_DOMAIN + qr.nonce + C.PairBytes(claim.local, claim.peer)
  {
    var x, y := C.SAS_DOMAIN + qr.nonce + C.PairBytes(offer.local, offer.peer),
                C.SAS_DOMAIN + qr.nonce + C.PairBytes(claim.local, claim.peer);
    var k := |C.SAS_DOMAIN + qr.nonce|;
    assert x[k..] == C.PairBytes(offer.local, offer.peer) && y[k..] == C.PairBytes(claim.local, claim.peer);
    C.PairBytesUnordered(offer.local, offer.peer, claim.local, claim.peer);
  }

  // ---- The store ----

  datatype Record = Record(generation: nat, server: string, room: Bytes, localFp: Bytes, peer: C.Bundle, peerFp: Bytes)

  function RecordOf(suite: C.Suite, c: Candidate): (r: Record)
  {
    Record(c.generation, c.server, C.RoomId(suite, c.local, c.peer), C.Fingerprint(suite, c.local), c.peer,
           C.Fingerprint(suite, c.peer))
  }

  predicate ValidRecord(suite: C.Suite, debug: bool, r: Record, self: C.Identity)
  {
    var local := C.PublicBundle(suite, self);
    && r.generation > 0 && r.generation == self.generation
    && r.localFp == C.Fingerprint(suite, local) && r.peerFp == C.Fingerprint(suite, r.peer)
    && r.localFp != r.peerFp && r.room == C.RoomId(suite, local, r.peer) && ValidServer(r.server, debug)
  }

  /** What is on disk: the identity file and the pairing file. */
  datatype Disk = Disk(identity: Option<C.Identity>, pairing: Option<Record>)

  datatype Loaded = NoPairing | Paired(record: Record) | Invalid

  /** The pairing of the identity on disk; a record of another generation counts as none. */
  function LoadPairing(suite: C.Suite, debug: bool, d: Disk): (l: Loaded)
    requires d.identity.Some?
  {
    if d.pairing.None? || d.pairing.value.generation != d.identity.value.generation then NoPairing
    else if ValidRecord(suite, debug, d.pairing.value, d.identity.value) then Paired(d.pairing.value)
    else Invalid
  }

  /** Where a reset stands: each stage is named after the checkpoint it has passed. */
  datatype Reset =
    | NoReset
    | TempWritten(next: C.Identity)
    | FileSynced(next: C.Identity)
    | IdentityRenamed(next: C.Identity)
    | DirectorySynced(next: C.Identity)

  /** A confirmation: digits shown, or checks passed and the record about to be written. */
  datatype Confirmation = Shown(candidate: Candidate, nonce: Bytes) | Vetted(record: Record)

  /** `completed` logs the records whose confirmation reported success. */
  datatype State = State(disk: Disk, reset: Reset, confirmations: map<nat, Confirmation>, completed: seq<Record>)

  datatype Config = Config(suite: C.Suite, debug: bool)

  datatype Event =
    | Create(first: C.Identity, write: Commit)
    | BeginReset(sign: Bytes, dh: Bytes)
    | AdvanceReset(ok: bool)
    | Show(n: nat, candidate: Candidate, nonce: Bytes)
    | Confirm(n: nat, digits: string)
    | Store(n: nat, write: Commit)
    | Crash

  /** A first identity is made only when there is none; one reset runs at a time; confirmations start from the
      identity on disk. */
  predicate Enabled(cfg: Config, s: State, e: Event)
  {
    match e
    case Create(first, _) => s.disk.identity.None? && first.generation == 1
    case BeginReset(_, _) => s.disk.identity.Some? && s.reset.NoReset?
    case AdvanceReset(_) => !s.reset.NoReset?
    case Show(n, c, _) => s.disk.identity.Some? && n !in s.confirmations && StartedFrom(cfg, c, s.disk.identity.value)
    case Confirm(n, _) => n in s.confirmations && s.confirmations[n].Shown? && s.disk.identity.Some?
    case Store(n, _) => n in s.confirmations && s.confirmations[n].Vetted?
    case Crash => true
  }

  /** What `Offer` and `Claim` produce for this identity. */
  predicate StartedFrom(cfg: Config, c: Candidate, self: C.Identity)
  {
    && c.generation == self.generation && c.local == C.PublicBundle(cfg.suite, self)
    && C.Fingerprint(cfg.suite, c.local) != C.Fingerprint(cfg.suite, c.peer) && ValidServer(c.server, cfg.debug)
  }

  function SasOf(cfg: Config, nonce: Bytes, c: Candidate): (digits: string)
  {
    if |cfg.suite.hash(C.SAS_DOMAIN + nonce + C.PairBytes(c.local, c.peer))| >= 4 then Sas(cfg.suite, nonce, c) else ""
  }

  /** The digits match and the identity on disk is still the one the exchange was started with. */
  predicate Passes(cfg: Config, s: State, n: nat, digits: string)
    requires n in s.confirmations && s.confirmations[n].Shown? && s.disk.identity.Some?
  {
    var record := RecordOf(cfg.suite, s.confirmations[n].candidate);
    && digits == SasOf(cfg, s.confirmations[n].nonce, s.confirmations[n].candidate)
    && record.generation == s.disk.identity.value.generation
    && record.localFp == C.Fingerprint(cfg.suite, C.PublicBundle(cfg.suite, s.disk.identity.value))
    && ValidRecord(cfg.suite, cfg.debug, record, s.disk.identity.value)
  }

  /** The reset's next stage; a failure abandons it where it is. */
  function Advanced(s: State, ok: bool): (s': State)
    requires !s.reset.NoReset?
  {
    match s.reset
    case TempWritten(next) => s.(reset := if ok then FileSynced(next) else NoReset)
    case FileSynced(next) =>
      if ok then s.(disk := s.disk.(identity := Some(next)), reset := IdentityRenamed(next)) else s.(reset := NoReset)
    case IdentityRenamed(next) => s.(reset := if ok then DirectorySynced(next) else NoReset)
    case DirectorySynced(_) => s.(disk := if ok then s.disk.(pairing := None) else s.disk, reset := NoReset)
  }

  function Step(cfg: Config, s: State, e: Event): (s': State)
    requires Enabled(cfg, s, e)
  {
    match e
    case Create(first, write) => if write.FailedOld? then s else s.(disk := s.disk.(identity := Some(first)))
    case BeginReset(sign, dh) =>
      var generation := s.disk.identity.value.generation;
      if generation >= U64_MAX then s else s.(reset := TempWritten(C.Identity(sign, dh, generation + 1)))
    case AdvanceReset(ok) => Advanced(s, ok)
    case Show(n, c, nonce) => s.(confirmations := s.confirmations[n := Shown(c, nonce)])
    case Confirm(n, digits) =>
      if Passes(cfg, s, n, digits) then
        s.(confirmations := s.confirmations[n := Vetted(RecordOf(cfg.suite, s.confirmations[n].candidate))])
      else s.(confirmations := s.confirmations - {n})
    case Store(n, write) =>
      var record := s.confirmations[n].record;
      s.(disk := if write.FailedOld? then s.disk else s.disk.(pairing := Some(record)),
         confirmations := s.confirmations - {n},
         completed := if write.Durable? then s.completed + [record] else s.completed)
    case Crash => s.(reset := NoReset, confirmations := map[])
  }

  predicate Legal(cfg: Config, s: State, events: seq<Event>)
    decreases |events|
  {
    events == [] || (Enabled(cfg, s, events[0]) && Legal(cfg, Step(cfg, s, events[0]), events[1..]))
  }

  function Run(cfg: Config, s: State, events: seq<Event>): (s': State)
    requires Legal(cfg, s, events)
    decreases |events|
  {
    if events == [] then s else Run(cfg, Step(cfg, s, events[0]), events[1..])
  }

  predicate Init(s: State)
  {
    s == State(Disk(None, None), NoReset, map[], [])
  }

  // ---- Invariants ----

  function Generation(d: Disk): (g: nat)
  {
    if d.identity.Some? then d.identity.value.generation else 0
  }

  /** Before the rename the disk has the reset's predecessor, after it the reset's own identity. */
  predicate ResetInv(d: Disk, reset: Reset)
  {
    match reset
    case NoReset => true
    case TempWritten(next) => d.identity.Some? && next.generation == Generation(d) + 1 <= U64_MAX
    case FileSynced(next) => d.identity.Some? && next.generation == Generation(d) + 1 <= U64_MAX
    case IdentityRenamed(next) => d.identity == Some(next)
    case DirectorySynced(next) => d.identity == Some(next)
  }

  /** A record of an earlier generation, or a valid one of the current. */
  predicate OldOrValid(cfg: Config, r: Record, d: Disk)
  {
    d.identity.Some? && (r.generation < Generation(d) || ValidRecord(cfg.suite, cfg.debug, r, d.identity.value))
  }

  /** A candidate of an earlier generation, or one started from the identity on disk. */
  predicate OldOrStarted(cfg: Config, c: Candidate, d: Disk)
  {
    d.identity.Some? && (c.generation < Generation(d) || StartedFrom(cfg, c, d.identity.value))
  }

  predicate RecordsInv(cfg: Config, s: State)
  {
    && (s.disk.pairing.Some? ==> OldOrValid(cfg, s.disk.pairing.value, s.disk))
    && (forall n :: n in s.confirmations && s.confirmations[n].Vetted? ==>
          OldOrValid(cfg, s.confirmations[n].record, s.disk))
    && (forall n :: n in s.confirmations && s.confirmations[n].Shown? ==>
          OldOrStarted(cfg, s.confirmations[n].candidate, s.disk))
  }

  predicate Inv(cfg: Config, s: State)
  {
    && Generation(s.disk) <= U64_MAX && (s.disk.identity.Some? ==> Generation(s.disk) > 0)
    && ResetInv(s.disk, s.reset) && RecordsInv(cfg, s)
  }

  /** Only two steps touch the identity: the first creation, and a reset's rename, which installs a complete
      identity one generation up. */
  lemma {:induction false} IdentityChangesWhole(cfg: Config, s: State, e: Event)
    requires Inv(cfg, s) && Enabled(cfg, s, e)
    ensures var d, d' := s.disk, Step(cfg, s, e).disk;
            || d'.identity == d.identity
            || (d.identity.None? && e.Create? && d'.identity == Some(e.first) && Generation(d') == 1)
            || (e.AdvanceReset? && s.reset.FileSynced? && d'.identity == Some(s.reset.next)
                && Generation(d') == Generation(d) + 1)
  {
  }

  lemma {:induction false} StepKeepsInv(cfg: Config, s: State, e: Event)
    requires Inv(cfg, s) && Enabled(cfg, s, e)
    ensures Inv(cfg, Step(cfg, s, e)) && Generation(s.disk) <= Generation(Step(cfg, s, e).disk)
  {
  }

  lemma {:induction false} RunKeepsInv(cfg: Config, s: State, events: seq<Event>)
    requires Inv(cfg, s) && Legal(cfg, s, events)
    ensures Inv(cfg, Run(cfg, s, events)) && Generation(s.disk) <= Generation(Run(cfg, s, events).disk)
    decreases |events|
  {
    if events != [] {
      StepKeepsInv(cfg, s, events[0]);
      RunKeepsInv(cfg, Step(cfg, s, events[0]), events[1..]);
    }
  }

  // ---- Theorems ----

  /** The state at a reset's checkpoint: 0 temp written, 1 file synced, 2 renamed, 3 directory synced. */
  function ResetTo(cfg: Config, s: State, sign: Bytes, dh: Bytes, stage: nat): (s': State)
    requires s.disk.identity.Some? && s.reset.NoReset? && Generation(s.disk) < U64_MAX && stage < 4
    ensures var next := C.Identity(sign, dh, Generation(s.disk) + 1);
            && s'.confirmations == s.confirmations && s'.completed == s.completed
            && s'.disk == (if stage < 2 then s.disk else s.disk.(identity := Some(next)))
            && s'.reset == (if stage == 0 then TempWritten(next) else if stage == 1 then FileSynced(next)
                            else if stage == 2 then IdentityRenamed(next) else DirectorySynced(next))
  {
    if stage == 0 then Step(cfg, s, BeginReset(sign, dh))
    else Step(cfg, ResetTo(cfg, s, sign, dh, stage - 1), AdvanceReset(true))
  }

  /** A completed reset installs the next generation and leaves no pairing. */
  lemma {:induction false} ResetRotates(cfg: Config, s: State, sign: Bytes, dh: Bytes)
    requires s.disk.identity.Some? && s.reset.NoReset? && Generation(s.disk) < U64_MAX
    ensures var done := Step(cfg, ResetTo(cfg, s, sign, dh, 3), AdvanceReset(true));
            && done.disk == Disk(Some(C.Identity(sign, dh, Generation(s.disk) + 1)), None)
            && LoadPairing(cfg.suite, cfg.debug, done.disk) == NoPairing
  {
  }

  /** The last generation cannot be left: the reset is refused and nothing changes. */
  lemma {:induction false} LastGenerationStays(cfg: Config, s: State, sign: Bytes, dh: Bytes)
    requires Inv(cfg, s) && s.disk.identity.Some? && s.reset.NoReset?
    ensures Step(cfg, s, BeginReset(sign, dh)) == s <==> Generation(s.disk) == U64_MAX
  {
  }

  /** In every reachable state the pairing that loads is valid for the identity on disk and of its generation;
      loading never trips over an invalid record; and generations never go back. */
  lemma {:induction false} LoadsOwnGenerationOnly(cfg: Config, s: State, before: seq<Event>, after: seq<Event>)
    requires Init(s) && Legal(cfg, s, before) && Legal(cfg, Run(cfg, s, before), after)
    ensures var s1 := Run(cfg, s, before);
            var s2 := Run(cfg, s1, after);
            && Generation(s1.disk) <= Generation(s2.disk)
            && (s2.disk.identity.Some? ==>
                  var l := LoadPairing(cfg.suite, cfg.debug, s2.disk);
                  && !l.Invalid?
                  && (l.Paired? ==> l.record.generation == Generation(s2.disk)
                                    && ValidRecord(cfg.suite, cfg.debug, l.record, s2.disk.identity.value)))
  {
    RunKeepsInv(cfg, s, before);
    RunKeepsInv(cfg, Run(cfg, s, before), after);
  }

  /** A confirmation that had passed its checks just before a reset's rename may still write its record and
      report success, but the record never loads, in any continuation. */
  lemma {:induction false} StaleRecordNeverLoads(cfg: Config, s: State, events: seq<Event>, r: Record)
    requires Inv(cfg, s) && Legal(cfg, s, events) && s.disk.identity.Some? && r.generation < Generation(s.disk)
    ensures var s' := Run(cfg, s, events);
            s'.disk.identity.Some? && LoadPairing(cfg.suite, cfg.debug, s'.disk) != Paired(r)
  {
    RunKeepsInv(cfg, s, events);
    IdentityStays(cfg, s, events);
  }

  lemma {:induction false} IdentityStays(cfg: Config, s: State, events: seq<Event>)
    requires Inv(cfg, s) && Legal(cfg, s, events) && s.disk.identity.Some?
    ensures Run(cfg, s, events).disk.identity.Some?
    decreases |events|
  {
    if events != [] {
      StepKeepsInv(cfg, s, events[0]);
      IdentityChangesWhole(cfg, s, events[0]);
      IdentityStays(cfg, Step(cfg, s, events[0]), events[1..]);
    }
  }

  /** A confirmation that passes and is stored at once is what loads next, exactly when no reset has renamed
      the identity in between. */
  lemma {:induction false} StoredIsLoaded(cfg: Config, s: State, n: nat, write: Commit)
    requires Inv(cfg, s) && n in s.confirmations && s.confirmations[n].Vetted? && !write.FailedOld?
    ensures s.disk.identity.Some?
    ensures var r := s.confirmations[n].record;
            LoadPairing(cfg.suite, cfg.debug, Step(cfg, s, Store(n, write)).disk) == Paired(r)
            <==> r.generation == Generation(s.disk)
  {
  }

  /** That a confirmation begun before a reset cannot complete after it holds only if its check does not
      precede the rename: between check and write the reset can slip in, and the confirmation still reports
      success, though for a record that does not load. */
  lemma {:induction false} CheckedMayOutliveRename(cfg: Config, s: State, n: nat)
    requires Inv(cfg, s) && s.reset.FileSynced? && n in s.confirmations && s.confirmations[n].Vetted?
    requires s.confirmations[n].record.generation == Generation(s.disk)
    ensures var renamed := Step(cfg, s, AdvanceReset(true));
            var stored := Step(cfg, renamed, Store(n, Durable));
            var r := s.confirmations[n].record;
            && stored.completed == s.completed + [r] && r.generation < Generation(stored.disk)
            && LoadPairing(cfg.suite, cfg.debug, stored.disk) == NoPairing
  {
  }

  /** What the exchange yields is a confirmation that may be shown. */
  lemma {:induction false} ExchangeStarts(cfg: Config, self: C.Identity, qr: Qr, server: string, peer: C.Bundle)
    ensures var o := Offer(cfg.suite, cfg.debug, self, qr, peer); o.Ok? ==> StartedFrom(cfg, o.value, self)
    ensures var c := Claim(cfg.suite, cfg.debug, self, qr, server, peer); c.Ok? ==> StartedFrom(cfg, c.value, self)
  {
  }

  // ---- The store as the program runs it ----

  class PairingStore {
    const cfg: Config
    var identity: Option<C.Identity>
    var pairing: Option<Record>

    function View(): (s: State)
      reads this
    {
      State(Disk(identity, pairing), NoReset, map[], [])
    }

    /** Loads the identity, or creates the first one. */
    method LoadIdentity(first: C.Identity, write: Commit) returns (loaded: Option<C.Identity>)
      requires first.generation == 1
      modifies this`identity
      ensures old(identity).Some? ==> identity == old(identity) && loaded == identity
      ensures old(identity).None? ==>
                View() == Step(cfg, old(View()), Create(first, write)) && (loaded.Some? <==> write.Durable?)
                && (loaded.Some? ==> loaded == identity)
    {
      if identity.Some? {
        return identity;
      }
      if write.FailedOld? {
        return None;
      }
      identity := Some(first);
      return if write.Durable? then Some(first) else None;
    }

    /** Stage by stage; the first failure ends the reset (`fail` names the checkpoint after which it happens,
        4 or more if none does), and the old pairing is removed on a best-effort basis. */
    method ResetIdentity(sign: Bytes, dh: Bytes, fail: nat, cleanup: bool) returns (next: Option<C.Identity>)
      requires identity.Some?
      modifies this
      ensures next.Some? <==> old(identity).value.generation < U64_MAX && fail >= 4
      ensures old(identity).value.generation >= U64_MAX ==> identity == old(identity) && pairing == old(pairing)
      ensures old(identity).value.generation < U64_MAX ==>
                Disk(identity, pairing)
                == Step(cfg, ResetTo(cfg, old(View()), sign, dh, if fail < 4 then fail else 3),
                        AdvanceReset(fail >= 4 && cleanup)).disk
    {
      var current := identity.value;
      if current.generation >= U64_MAX {
        return None;
      }
      var rotated := C.Identity(sign, dh, current.generation + 1);
      if fail < 2 {
        return None;
      }
      identity := Some(rotated);
      if fail < 4 {
        return None;
      }
      if cleanup {
        pairing := None;
      }
      return Some(rotated);
    }

    /** Compares the digits, checks that the identity is still the same, and writes the record. */
    method ConfirmDigits(c: Candidate, nonce: Bytes, digits: string, write: Commit) returns (done: Option<Record>)
      requires identity.Some?
      modifies this`pairing
      ensures var s := old(View()).(confirmations := map[0 := Shown(c, nonce)]);
              var s1 := Step(cfg, s, Confirm(0, digits));
              && (!Passes(cfg, s, 0, digits) ==> done.None? && pairing == old(pairing))
              && (Passes(cfg, s, 0, digits) ==>
                    && Disk(identity, pairing) == Step(cfg, s1, Store(0, write)).disk
                    && done == if write.Durable? then Some(RecordOf(cfg.suite, c)) else None)
    {
      if digits != SasOf(cfg, nonce, c) {
        return None;
      }
      var record := RecordOf(cfg.suite, c);
      if record.generation != identity.value.generation
         || record.localFp != C.Fingerprint(cfg.suite, C.PublicBundle(cfg.suite, identity.value)) {
        return None;
      }
      if !ValidRecord(cfg.suite, cfg.debug, record, identity.value) {
        return None;
      }
      if write.FailedOld? {
        return None;
      }
      pairing := Some(record);
      return if write.Durable? then Some(record) else None;
    }
  }
}

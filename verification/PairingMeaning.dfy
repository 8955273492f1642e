/** What the pairing checks and the store's steps amount to, condition by condition, and that two honest devices end up
    paired with each other. */
module PairingMeaning {
  import opened Prelude
  import opened Pairing
  import C = Crypto
  import T = PairingTheorems

  // ---- Relay addresses ----

  /** The authority runs up to the first delimiter, or to the end. */
  lemma {:induction false} AuthorityExactly(text: string)
    ensures var n := |Authority(text)|;
            && n <= |text| && Authority(text) == text[..n] && (forall i :: 0 <= i < n ==> text[i] !in "/?#")
            && (n < |text| ==> text[n] in "/?#")
  {
    if text != "" && text[0] !in "/?#" {
      AuthorityExactly(text[1..]);
    }
  }

  /** `server` is the scheme, then a host of at least one character without delimiters or credentials, then nothing or
      what a delimiter starts. */
  predicate HasHost(server: string, scheme: string, end: int)
  {
    && scheme <= server && |scheme| < end <= |server|
    && (forall i :: |scheme| <= i < end ==> server[i] !in "/?#@")
    && (end == |server| || server[end] in "/?#")
  }

  lemma {:induction false} HostExactly(server: string, scheme: string)
    requires scheme <= server
    ensures var host := Authority(server[|scheme|..]);
            host != "" && '@' !in host <==> exists end :: HasHost(server, scheme, end)
  {
    var rest := server[|scheme|..];
    var host := Authority(rest);
    var n := |scheme| + |host|;
    AuthorityExactly(rest);
    assert forall i :: |scheme| <= i < |server| ==> server[i] == rest[i - |scheme|];
    assert forall i :: |scheme| <= i < n ==> server[i] == host[i - |scheme|] && host[i - |scheme|] in host;
    if host != "" && '@' !in host {
      assert HasHost(server, scheme, n);
    }
    if end :| HasHost(server, scheme, end) {
      assert end == n;
      assert forall i :: 0 <= i < |host| ==> host[i] == server[|scheme| + i];
    }
  }

  /** An address is accepted exactly if it names a host over an encrypted connection, or in debug builds an unencrypted
      one, without credentials, fragment, blanks or control characters. */
  lemma {:induction false} ServerExactly(server: string, debug: bool)
    ensures ValidServer(server, debug)
            <==> && (|| (exists end :: HasHost(server, "wss://", end))
                     || (debug && exists end :: HasHost(server, "ws://", end)))
                 && '#' !in server && (forall c :: c in server ==> c as int > 32 && c as int != 127)
  {
    var tls, plain := "wss://", "ws://";
    if tls <= server {
      HostExactly(server, tls);
      assert StripPrefix(server, tls) == Some(server[|tls|..]);
      assert !(plain <= server) by {
        assert server[1] == 's' && plain[1] == 's';
        assert server[2] == tls[2] && tls[2] != plain[2];
      }
    } else if plain <= server {
      HostExactly(server, plain);
    }
  }

  // ---- The exchange ----

  predicate SixCharacters(code: string)
  {
    |code| == 6 && forall i :: 0 <= i < 6 ==> 'A' <= code[i] <= 'Z' || '0' <= code[i] <= '9'
  }

  /** The offerer's answer, by the first thing that is wrong. */
  lemma {:induction false} OfferExactly(suite: C.Suite, debug: bool, self: C.Identity, qr: Qr, peer: C.Bundle)
    ensures var local := C.PublicBundle(suite, self);
            var same := C.Fingerprint(suite, peer) == C.Fingerprint(suite, local);
            var server, code := ValidServer(qr.server, debug), SixCharacters(qr.code);
            var r := Offer(suite, debug, self, qr, peer);
            && (r == Err(InvalidServer) <==> !server)
            && (r == Err(InvalidCode) <==> server && !code)
            && (r == Err(BundleMismatch) <==> server && code && qr.bundle != local)
            && (r == Err(SameIdentity) <==> server && code && qr.bundle == local && same)
            && (r.Ok? <==> server && code && qr.bundle == local && !same)
            && (r.Ok? ==> r.value == Candidate(self.generation, qr.server, local, peer))
  {
    CodeExactly(qr.code);
  }

  lemma {:induction false} CodeExactly(code: string)
    ensures ValidCode(code) <==> SixCharacters(code)
  {
    assert forall i :: 0 <= i < |code| ==> code[i] in code;
  }

  /** The claimer's answer, by the first thing that is wrong. */
  lemma {:induction false} ClaimExactly(suite: C.Suite, debug: bool, self: C.Identity, qr: Qr, server: string,
                                        peer: C.Bundle)
    ensures var local := C.PublicBundle(suite, self);
            var same := C.Fingerprint(suite, qr.bundle) == C.Fingerprint(suite, local);
            var scanned := ValidServer(qr.server, debug) && SixCharacters(qr.code) && !same;
            var r := Claim(suite, debug, self, qr, server, peer);
            && (r == Err(InvalidServer) <==> !ValidServer(qr.server, debug))
            && (r == Err(InvalidCode) <==> ValidServer(qr.server, debug) && !SixCharacters(qr.code))
            && (r == Err(SameIdentity) <==> ValidServer(qr.server, debug) && SixCharacters(qr.code) && same)
            && (r == Err(ServerMismatch) <==> scanned && server != qr.server)
            && (r == Err(BundleMismatch) <==> scanned && server == qr.server && peer != qr.bundle)
            && (r.Ok? <==> scanned && server == qr.server && peer == qr.bundle)
            && (r.Ok? ==> r.value == Candidate(self.generation, qr.server, local, qr.bundle))
  {
    CodeExactly(qr.code);
  }

  // ---- The store ----

  /** A record loads exactly if it is of the identity's generation and everything in it is what the identity, the peer's
      keys and the relay's address give; one of another generation counts as none; any other is invalid. */
  lemma {:induction false} LoadExactly(suite: C.Suite, debug: bool, self: C.Identity, r: Record)
    ensures var local := C.PublicBundle(suite, self);
            var intact := && r.generation > 0 && r.localFp == C.Fingerprint(suite, local)
                          && r.peerFp == C.Fingerprint(suite, r.peer) && r.room == C.RoomId(suite, local, r.peer)
                          && r.localFp != r.peerFp && ValidServer(r.server, debug);
            && LoadPairing(suite, debug, Disk(Some(self), None)) == NoPairing
            && LoadPairing(suite, debug, Disk(Some(self), Some(r)))
               == (if r.generation != self.generation then NoPairing else if intact then Paired(r) else Invalid)
  {
  }

  /** A reset moves on one checkpoint or is abandoned where it is. The rename alone changes the identity, the cleanup
      alone removes the pairing, and a failure changes nothing on disk. */
  lemma {:induction false} AdvanceExactly(cfg: Config, s: State, ok: bool)
    requires !s.reset.NoReset?
    ensures var s', next := Step(cfg, s, AdvanceReset(ok)), s.reset.next;
            && s' == s.(disk := s'.disk, reset := s'.reset)
            && s'.disk == (if ok && s.reset == FileSynced(next) then Disk(Some(next), s.disk.pairing)
                           else if ok && s.reset == DirectorySynced(next) then Disk(s.disk.identity, None)
                           else s.disk)
            && (s'.reset.NoReset? <==> !ok || s.reset == DirectorySynced(next))
            && (s'.reset.NoReset? || s'.reset.next == next)
  {
  }

  /** A first identity is there unless its write failed outright. A reset starts from the next generation, and not past
      the last one. A crash ends resets and confirmations and leaves the disk. */
  lemma {:induction false} StoreStepsExactly(cfg: Config, s: State, e: Event)
    requires Enabled(cfg, s, e)
    ensures var s' := Step(cfg, s, e);
            && (e.Create? && e.write == FailedOld ==> s' == s)
            && (e.Create? && e.write != FailedOld ==> s' == s.(disk := Disk(Some(e.first), s.disk.pairing)))
            && (e.BeginReset? ==>
                  var g := s.disk.identity.value.generation;
                  s' == if g < U64_MAX then s.(reset := TempWritten(C.Identity(e.sign, e.dh, g + 1))) else s)
            && (e.Show? ==> s' == s.(confirmations := s.confirmations[e.n := Shown(e.candidate, e.nonce)]))
            && (e.Crash? ==> s' == State(s.disk, NoReset, map[], s.completed))
  {
  }

  /** What a confirmation stores replaces the pairing unless the write failed outright, and only a write known to be
      durable is reported as success. */
  lemma {:induction false} StoreExactly(cfg: Config, s: State, n: nat, write: Commit)
    requires n in s.confirmations && s.confirmations[n].Vetted?
    ensures var s', r := Step(cfg, s, Store(n, write)), s.confirmations[n].record;
            && s'.disk == (if write == FailedOld then s.disk else Disk(s.disk.identity, Some(r)))
            && s'.completed == s.completed + (if write == Durable then [r] else [])
            && s'.confirmations == s.confirmations - {n} && s'.reset == s.reset
  {
  }

  /** Wrong digits, or an identity that is no longer the one on disk, end the confirmation and change nothing else. */
  lemma {:induction false} ConfirmExactly(cfg: Config, s: State, n: nat, digits: string)
    requires Inv(cfg, s) && Enabled(cfg, s, Confirm(n, digits))
    ensures var s', c := Step(cfg, s, Confirm(n, digits)), s.confirmations[n].candidate;
            var passed := digits == SasOf(cfg, s.confirmations[n].nonce, c)
                          && c.generation == s.disk.identity.value.generation;
            && s' == s.(confirmations := s'.confirmations)
            && (passed ==>
                  s'.confirmations
                  == s.confirmations[n := Vetted(Record(c.generation, c.server, C.RoomId(cfg.suite, c.local, c.peer),
                                                        C.Fingerprint(cfg.suite, c.local), c.peer,
                                                        C.Fingerprint(cfg.suite, c.peer)))])
            && (!passed ==> s'.confirmations == s.confirmations - {n})
  {
    T.PassesExactly(cfg, s, n, digits);
  }

  // ---- Two honest devices ----

  /** The device shows its candidate, the user types in the digits, and the record is written. */
  function Confirmed(cfg: Config, s: State, n: nat, c: Candidate, nonce: Bytes, digits: string): (s': State)
    requires Enabled(cfg, s, Show(n, c, nonce))
    requires var s1 := Step(cfg, s, Show(n, c, nonce)); Passes(cfg, s1, n, digits)
  {
    var s2 := Step(cfg, Step(cfg, s, Show(n, c, nonce)), Confirm(n, digits));
    Step(cfg, s2, Store(n, Durable))
  }

  lemma {:induction false} ConfirmedLoads(cfg: Config, s: State, n: nat, c: Candidate, nonce: Bytes, digits: string)
    requires Inv(cfg, s) && Enabled(cfg, s, Show(n, c, nonce)) && digits == SasOf(cfg, nonce, c)
    ensures Passes(cfg, Step(cfg, s, Show(n, c, nonce)), n, digits)
    ensures var s' := Confirmed(cfg, s, n, c, nonce, digits);
            && s'.disk.identity == s.disk.identity && s'.disk.identity.Some?
            && LoadPairing(cfg.suite, cfg.debug, s'.disk) == Paired(RecordOf(cfg.suite, c))
  {
    T.VouchedPairs(cfg, s, n, c, nonce);
  }

  /** Two devices with different identities exchange a code over an honest relay, and each user types in the digits the
      other device shows. Then both devices load a pairing: with the other's keys, for the same room, over the relay in
      the code. */
  lemma {:induction false} HonestDevicesPair(cfg: Config, s: State, t: State, a: C.Identity, b: C.Identity, qr: Qr,
                                             n: nat, m: nat)
    requires C.Sound(cfg.suite) && Inv(cfg, s) && Inv(cfg, t)
    requires s.disk.identity == Some(a) && t.disk.identity == Some(b) && n !in s.confirmations && m !in t.confirmations
    requires qr.bundle == C.PublicBundle(cfg.suite, a) && ValidServer(qr.server, cfg.debug) && SixCharacters(qr.code)
    requires C.Fingerprint(cfg.suite, C.PublicBundle(cfg.suite, a))
             != C.Fingerprint(cfg.suite, C.PublicBundle(cfg.suite, b))
    ensures var pa, pb := C.PublicBundle(cfg.suite, a), C.PublicBundle(cfg.suite, b);
            var offer := Offer(cfg.suite, cfg.debug, a, qr, pb);
            var claim := Claim(cfg.suite, cfg.debug, b, qr, qr.server, pa);
            && offer.Ok? && claim.Ok?
            && var shownByA, shownByB := SasOf(cfg, qr.nonce, offer.value), SasOf(cfg, qr.nonce, claim.value);
            && Enabled(cfg, s, Show(n, offer.value, qr.nonce)) && Enabled(cfg, t, Show(m, claim.value, qr.nonce))
            && Passes(cfg, Step(cfg, s, Show(n, offer.value, qr.nonce)), n, shownByB)
            && Passes(cfg, Step(cfg, t, Show(m, claim.value, qr.nonce)), m, shownByA)
            && var s' := Confirmed(cfg, s, n, offer.value, qr.nonce, shownByB);
            var t' := Confirmed(cfg, t, m, claim.value, qr.nonce, shownByA);
            && s'.disk.identity == Some(a) && t'.disk.identity == Some(b)
            && var ra, rb := LoadPairing(cfg.suite, cfg.debug, s'.disk), LoadPairing(cfg.suite, cfg.debug, t'.disk);
            && ra.Paired? && rb.Paired? && MirrorEachOther(ra.record, rb.record, pa, pb, qr.server)
  {
    var pa, pb := C.PublicBundle(cfg.suite, a), C.PublicBundle(cfg.suite, b);
    OfferExactly(cfg.suite, cfg.debug, a, qr, pb);
    ClaimExactly(cfg.suite, cfg.debug, b, qr, qr.server, pa);
    var offer, claim := Candidate(a.generation, qr.server, pa, pb), Candidate(b.generation, qr.server, pb, pa);
    C.RoomAndSasSymmetric(cfg.suite, qr.nonce, pa, pb);
    assert SasOf(cfg, qr.nonce, offer) == SasOf(cfg, qr.nonce, claim);
    ConfirmedLoads(cfg, s, n, offer, qr.nonce, SasOf(cfg, qr.nonce, claim));
    ConfirmedLoads(cfg, t, m, claim, qr.nonce, SasOf(cfg, qr.nonce, offer));
  }

  /** Two records of one pairing, seen from its two ends. */
  predicate MirrorEachOther(ra: Record, rb: Record, pa: C.Bundle, pb: C.Bundle, server: string)
  {
    && ra.peer == pb && rb.peer == pa && ra.room == rb.room && ra.localFp == rb.peerFp && ra.peerFp == rb.localFp
    && ra.server == server && rb.server == server
  }
}

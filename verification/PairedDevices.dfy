/** From pairing to sessions: what two devices wrote down when they confirmed each other is what their sessions
    need to understand each other. */
module PairedDevices {
  import opened Prelude
  import C = Crypto
  import P = Pairing
  import S = Session
  import System

  /** The session a device opens from its identity and its pairing record. */
  function ConfigOf(suite: C.Suite, self: C.Identity, r: P.Record): (cfg: Option<S.Config>)
  {
    var keys := C.SessionKeys(suite, self, r.peer);
    if keys.None? then None else Some(S.Config(r.room, r.localFp, r.peerFp, r.generation, keys.value))
  }

  /** After an honest exchange both devices open a session or neither does, and the two sessions are paired: one
      room, each the other's peer, each sealing with the key the other opens with. */
  lemma {:induction false} ConfirmedDevicesArePaired(suite: C.Suite, debug: bool, a: C.Identity, b: C.Identity,
                                                     qr: P.Qr)
    requires C.Sound(suite) && qr.bundle == C.PublicBundle(suite, a)
    requires P.Offer(suite, debug, a, qr, C.PublicBundle(suite, b)).Ok?
    ensures var offer := P.Offer(suite, debug, a, qr, C.PublicBundle(suite, b));
            var claim := P.Claim(suite, debug, b, qr, qr.server, C.PublicBundle(suite, a));
            && claim.Ok?
            && var ca := ConfigOf(suite, a, P.RecordOf(suite, offer.value));
            var cb := ConfigOf(suite, b, P.RecordOf(suite, claim.value));
            && (ca.Some? <==> cb.Some?)
            && (ca.Some? ==> System.Paired(ca.value, cb.value))
  {
    P.HonestExchangeAgrees(suite, debug, a, b, qr);
    var x, y := C.PublicBundle(suite, a), C.PublicBundle(suite, b);
    C.SessionKeysAgree(suite, a, b);
    var ra := P.RecordOf(suite, P.Offer(suite, debug, a, qr, y).value);
    var rb := P.RecordOf(suite, P.Claim(suite, debug, b, qr, qr.server, x).value);
    if ConfigOf(suite, a, ra).Some? {
      System.DerivedKeysPair(suite, a, b, ConfigOf(suite, a, ra).value, ConfigOf(suite, b, rb).value);
    }
  }

  lemma {:induction false} HexHasNone(bytes: Bytes, separator: Byte)
    requires !C.IsLowerHex(separator)
    ensures separator !in C.Hex(bytes)
  {
    C.HexRoundTrip(bytes);
  }

  /** Two directions of pairing records that load, of the same device or of different ones, share a storage key exactly
      when they are the same direction of the same room; the same goes for the associated data. */
  lemma {:induction false} DirectionsAreDistinct(suite: C.Suite, debug: bool, r: P.Record, self: C.Identity,
                                                 r': P.Record, self': C.Identity, flip: bool)
    requires P.ValidRecord(suite, debug, r, self) && P.ValidRecord(suite, debug, r', self')
    ensures var (from, to) := if flip then (r'.peerFp, r'.localFp) else (r'.localFp, r'.peerFp);
            var same := r.room == r'.room && r.localFp == from && r.peerFp == to;
            && (C.DirectionKey(r.room, r.localFp, r.peerFp) == C.DirectionKey(r'.room, from, to) <==> same)
            && (C.Aad(r.room, r.localFp, r.peerFp) == C.Aad(r'.room, from, to) <==> same)
  {
    var (from, to) := if flip then (r'.peerFp, r'.localFp) else (r'.localFp, r'.peerFp);
    forall separator: Byte | !C.IsLowerHex(separator)
      ensures separator !in r.room && separator !in r.localFp && separator !in r'.room && separator !in from
    {
      RecordHasNone(suite, debug, r, self, separator);
      RecordHasNone(suite, debug, r', self', separator);
    }
    if C.DirectionKey(r.room, r.localFp, r.peerFp) == C.DirectionKey(r'.room, from, to) {
      C.JoinedInjective(r.room, r.localFp, r.peerFp, r'.room, from, to, 58);
    }
    if C.Aad(r.room, r.localFp, r.peerFp) == C.Aad(r'.room, from, to) {
      C.JoinedInjective(r.room, r.localFp, r.peerFp, r'.room, from, to, 0);
    }
  }

  lemma {:induction false} RecordHasNone(suite: C.Suite, debug: bool, r: P.Record, self: C.Identity, separator: Byte)
    requires P.ValidRecord(suite, debug, r, self) && !C.IsLowerHex(separator)
    ensures separator !in r.room && separator !in r.localFp && separator !in r.peerFp
  {
    var local := C.PublicBundle(suite, self);
    HexHasNone(suite.hash(C.BundleBytes(local)), separator);
    HexHasNone(suite.hash(C.BundleBytes(r.peer)), separator);
    var digest := suite.hash(C.PairBytes(local, r.peer));
    HexHasNone(if |digest| >= 16 then digest[..16] else digest, separator);
  }
}

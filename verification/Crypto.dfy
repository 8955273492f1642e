/** The byte encodings every signature, hash, key derivation and seal is computed over. Strings are
    their UTF-8 bytes. Hash, Diffie-Hellman and key expansion are arbitrary functions. */
module Crypto {
  import opened Prelude

  const KEY_LENGTH: nat := 32
  const JOIN_DOMAIN: Bytes := Ascii("clipboard-sync-join-v1")
  const HKDF_DOMAIN: Bytes := Ascii("clipboard-sync-v1")
  const SAS_DOMAIN: Bytes := Ascii("clipboard-sync-sas-v1")

  function Ascii(s: string): (r: Bytes)
    ensures |r| == |s|
  {
    seq(|s|, i requires 0 <= i < |s| => (s[i] as int % 256) as Byte)
  }

  // ---- Lower-case hex ----

  function HexDigit(n: nat): (r: Byte)
    requires n < 16
  {
    if n < 10 then (48 + n) as Byte else (87 + n) as Byte
  }

  predicate IsLowerHex(b: Byte)
  {
    48 <= b <= 57 || 97 <= b <= 102
  }

  /** `n` lower-case hex digits: the form of room ids (32) and fingerprints (64). */
  predicate IsHex(text: Bytes, n: nat)
  {
    |text| == n && forall b :: b in text ==> IsLowerHex(b)
  }

  function Hex(bytes: Bytes): (r: Bytes)
  {
    if bytes == [] then []
    else [HexDigit(bytes[0] as nat / 16), HexDigit(bytes[0] as nat % 16)] + Hex(bytes[1..])
  }

  method HexLower(bytes: Bytes) returns (encoded: Bytes)
    ensures encoded == Hex(bytes)
  {
    encoded := [];
    for i := 0 to |bytes|
      invariant encoded + Hex(bytes[i..]) == Hex(bytes)
    {
      assert bytes[i..][0] == bytes[i] && bytes[i..][1..] == bytes[i + 1..];
      encoded := encoded + [HexDigit(bytes[i] as nat / 16)];
      encoded := encoded + [HexDigit(bytes[i] as nat % 16)];
    }
  }

  function HexValue(b: Byte): (r: int)
  {
    if b <= 57 then b as int - 48 else b as int - 87
  }

  function Unhex(encoded: Bytes): (r: seq<int>)
  {
    if |encoded| < 2 then []
    else [16 * HexValue(encoded[0]) + HexValue(encoded[1])] + Unhex(encoded[2..])
  }

  /** Hex is a fixed-ratio lower-case encoding that decodes back to the same bytes. */
  lemma {:induction false} HexRoundTrip(bytes: Bytes)
    ensures |Hex(bytes)| == 2 * |bytes|
    ensures forall b :: b in Hex(bytes) ==> IsLowerHex(b)
    ensures Unhex(Hex(bytes)) == seq(|bytes|, i requires 0 <= i < |bytes| => bytes[i] as int)
  {
    if bytes != [] {
      HexRoundTrip(bytes[1..]);
      assert Hex(bytes)[2..] == Hex(bytes[1..]);
    }
  }

  lemma {:induction false} HexInjective(a: Bytes, b: Bytes)
    requires Hex(a) == Hex(b)
    ensures a == b
  {
    HexRoundTrip(a);
    HexRoundTrip(b);
    forall i | 0 <= i < |a|
      ensures a[i] == b[i]
    {
      assert Unhex(Hex(a))[i] == a[i] as int && Unhex(Hex(b))[i] == b[i] as int;
    }
  }

  // ---- Length-prefixed join message ----

  const U32_LIMIT: nat := 0x1_0000_0000

  function Be32(n: nat): (r: Bytes)
    requires n < U32_LIMIT
    ensures |r| == 4
  {
    var h := n / 0x100;
    var g := h / 0x100;
    [(g / 0x100) as Byte, (g % 0x100) as Byte, (h % 0x100) as Byte, (n % 0x100) as Byte]
  }

  lemma {:induction false} Be32Injective(m: nat, n: nat)
    requires m < U32_LIMIT && n < U32_LIMIT && Be32(m) == Be32(n)
    ensures m == n
  {
  }

  predicate Encodable(fields: seq<Bytes>)
  {
    forall f :: f in fields ==> |f| < U32_LIMIT
  }

  function Prefixed(fields: seq<Bytes>): (r: Bytes)
    requires Encodable(fields)
  {
    if fields == [] then [] else Be32(|fields[0]|) + fields[0] + Prefixed(fields[1..])
  }

  method AppendFields(domain: Bytes, fields: seq<Bytes>) returns (message: Option<Bytes>)
    ensures message.Some? <==> Encodable(fields)
    ensures message.Some? ==> message.value == domain + Prefixed(fields)
  {
    var out := domain;
    var i := 0;
    while i < |fields|
      invariant 0 <= i <= |fields|
      invariant forall j :: 0 <= j < i ==> |fields[j]| < U32_LIMIT
      invariant Encodable(fields) ==> out + Prefixed(fields[i..]) == domain + Prefixed(fields)
    {
      if |fields[i]| >= U32_LIMIT {
        assert fields[i] in fields;
        return None;
      }
      assert fields[i..][0] == fields[i] && fields[i..][1..] == fields[i + 1..];
      out := out + Be32(|fields[i]|);
      out := out + fields[i];
      i := i + 1;
    }
    return Some(out);
  }

  /** The signed join message, or nothing when a field is longer than a u32 can say. */
  method JoinSigMsg(nonce: Bytes, room: Bytes, device: Bytes, bundle: Bytes) returns (message: Option<Bytes>)
    ensures message.Some? <==> Encodable([nonce, room, device, bundle])
    ensures message.Some? ==> message.value == JOIN_DOMAIN + Prefixed([nonce, room, device, bundle])
  {
    message := AppendFields(JOIN_DOMAIN, [nonce, room, device, bundle]);
  }

  lemma {:induction false} PrefixedInjective(a: seq<Bytes>, b: seq<Bytes>)
    requires |a| == |b| && Encodable(a) && Encodable(b)
    requires Prefixed(a) == Prefixed(b)
    ensures a == b
  {
    if a != [] {
      var x, y := a[0], b[0];
      var p, q := Prefixed(a), Prefixed(b);
      assert p[..4] == Be32(|x|) && q[..4] == Be32(|y|);
      Be32Injective(|x|, |y|);
      assert p[4..4 + |x|] == x && q[4..4 + |y|] == y;
      assert p[4 + |x|..] == Prefixed(a[1..]) && q[4 + |y|..] == Prefixed(b[1..]);
      PrefixedInjective(a[1..], b[1..]);
      assert a == [x] + a[1..] && b == [y] + b[1..];
    }
  }

  /** Two joins sign the same message only when nonce, room, device and bundle all agree. */
  lemma {:induction false} JoinMessageInjective(n: Bytes, r: Bytes, d: Bytes, k: Bytes, n': Bytes, r': Bytes,
                                                d': Bytes, k': Bytes)
    requires Encodable([n, r, d, k]) && Encodable([n', r', d', k'])
    requires JOIN_DOMAIN + Prefixed([n, r, d, k]) == JOIN_DOMAIN + Prefixed([n', r', d', k'])
    ensures n == n' && r == r' && d == d' && k == k'
  {
    var p, q := Prefixed([n, r, d, k]), Prefixed([n', r', d', k']);
    assert (JOIN_DOMAIN + p)[|JOIN_DOMAIN|..] == p && (JOIN_DOMAIN + q)[|JOIN_DOMAIN|..] == q;
    PrefixedInjective([n, r, d, k], [n', r', d', k']);
    var f, g := [n, r, d, k], [n', r', d', k'];
    assert f[0] == g[0] && f[1] == g[1] && f[2] == g[2] && f[3] == g[3];
  }

  // ---- Separator-joined strings ----

  function Joined(room: Bytes, sender: Bytes, receiver: Bytes, separator: Byte): (r: Bytes)
  {
    room + [separator] + sender + [separator] + receiver
  }

  /** Associated data of a sealed clip: NUL-separated, sender before receiver. */
  function Aad(room: Bytes, sender: Bytes, receiver: Bytes): (r: Bytes)
  {
    Joined(room, sender, receiver, 0)
  }

  /** Storage key of one direction's durable state: colon-separated. */
  function DirectionKey(room: Bytes, sender: Bytes, receiver: Bytes): (r: Bytes)
  {
    Joined(room, sender, receiver, 58)
  }

  lemma {:induction false} SplitAtFirst(a: Bytes, x: Bytes, b: Bytes, y: Bytes, separator: Byte)
    requires separator !in a && separator !in b
    requires a + [separator] + x == b + [separator] + y
    ensures a == b && x == y
  {
    var p, q := a + [separator] + x, b + [separator] + y;
    assert forall i :: 0 <= i < |a| ==> p[i] == a[i] && p[i] != separator;
    assert forall i :: 0 <= i < |b| ==> q[i] == b[i] && q[i] != separator;
    assert p[|a|] == separator && q[|b|] == separator;
    assert |a| == |b|;
    assert p[..|a|] == a && q[..|b|] == b;
    assert p[|a| + 1..] == x && q[|b| + 1..] == y;
  }

  /** Associated data and storage keys determine room, sender and receiver, in that order, as soon
      as none of them contains the separator, which hex strings never do. */
  lemma {:induction false} JoinedInjective(r: Bytes, s: Bytes, t: Bytes, r': Bytes, s': Bytes, t': Bytes,
                                           separator: Byte)
    requires separator !in r && separator !in s && separator !in r' && separator !in s'
    requires Joined(r, s, t, separator) == Joined(r', s', t', separator)
    ensures r == r' && s == s' && t == t'
  {
    assert Joined(r, s, t, separator) == r + [separator] + (s + [separator] + t);
    assert Joined(r', s', t', separator) == r' + [separator] + (s' + [separator] + t');
    SplitAtFirst(r, s + [separator] + t, r', s' + [separator] + t', separator);
    SplitAtFirst(s, t, s', t', separator);
  }

  /** Without the hex guarantee the storage key does not determine the direction. */
  lemma {:induction false} DirectionKeyNeedsHex()
    ensures Ascii("a") != Ascii("a:a")
    ensures DirectionKey([], Ascii("a"), Ascii("a:a")) == DirectionKey([], Ascii("a:a"), Ascii("a"))
  {
  }

  // ---- Order-independent digests ----

  predicate LexLe(a: Bytes, b: Bytes)
  {
    a == [] || (b != [] && (a[0] < b[0] || (a[0] == b[0] && LexLe(a[1..], b[1..]))))
  }

  lemma {:induction false} LexTotal(a: Bytes, b: Bytes)
    ensures LexLe(a, b) || LexLe(b, a)
    ensures LexLe(a, b) && LexLe(b, a) <==> a == b
  {
    if a != [] && b != [] {
      LexTotal(a[1..], b[1..]);
      assert a == [a[0]] + a[1..] && b == [b[0]] + b[1..];
    }
  }

  datatype Bundle = Bundle(sign: Bytes, dh: Bytes)

  predicate WellFormed(b: Bundle)
  {
    |b.sign| == KEY_LENGTH && |b.dh| == KEY_LENGTH
  }

  function BundleBytes(b: Bundle): (r: Bytes)
  {
    b.sign + b.dh
  }

  lemma {:induction false} BundleBytesInjective(a: Bundle, b: Bundle)
    requires WellFormed(a) && WellFormed(b) && BundleBytes(a) == BundleBytes(b)
    ensures a == b
  {
    var p, q := BundleBytes(a), BundleBytes(b);
    assert p[..KEY_LENGTH] == a.sign && q[..KEY_LENGTH] == b.sign;
    assert p[KEY_LENGTH..] == a.dh && q[KEY_LENGTH..] == b.dh;
  }

  /** Both bundles' bytes, the smaller first. */
  function PairBytes(a: Bundle, b: Bundle): (r: Bytes)
  {
    var x, y := BundleBytes(a), BundleBytes(b);
    if LexLe(x, y) then x + y else y + x
  }

  /** The pair encoding forgets exactly the order of the two bundles, nothing else. */
  lemma {:induction false} PairBytesUnordered(a: Bundle, b: Bundle, c: Bundle, d: Bundle)
    requires WellFormed(a) && WellFormed(b) && WellFormed(c) && WellFormed(d)
    ensures PairBytes(a, b) == PairBytes(c, d) <==> (a == c && b == d) || (a == d && b == c)
  {
    LexTotal(BundleBytes(a), BundleBytes(b));
    LexTotal(BundleBytes(c), BundleBytes(d));
    var p, q := PairBytes(a, b), PairBytes(c, d);
    if p == q {
      var x, y := if LexLe(BundleBytes(a), BundleBytes(b)) then a else b,
                  if LexLe(BundleBytes(a), BundleBytes(b)) then b else a;
      var u, v := if LexLe(BundleBytes(c), BundleBytes(d)) then c else d,
                  if LexLe(BundleBytes(c), BundleBytes(d)) then d else c;
      assert p[..64] == BundleBytes(x) && p[64..] == BundleBytes(y);
      assert q[..64] == BundleBytes(u) && q[64..] == BundleBytes(v);
      BundleBytesInjective(x, u);
      BundleBytesInjective(y, v);
    }
  }

  /** A 32-byte hash, a Diffie-Hellman function and a key expansion, all deterministic. */
  datatype Suite = Suite(hash: Bytes -> Bytes, public: Bytes -> Bytes, dh: (Bytes, Bytes) -> Bytes,
                         expand: (Bytes, Bytes) -> Bytes)

  ghost predicate Sound(suite: Suite)
  {
    && (forall m :: |suite.hash(m)| == 32)
    && (forall m :: |suite.public(m)| == KEY_LENGTH)
    && (forall a, b :: suite.dh(a, suite.public(b)) == suite.dh(b, suite.public(a)))
  }

  function Fingerprint(suite: Suite, b: Bundle): (r: Bytes)
  {
    Hex(suite.hash(BundleBytes(b)))
  }

  function RoomId(suite: Suite, a: Bundle, b: Bundle): (r: Bytes)
  {
    var digest := suite.hash(PairBytes(a, b));
    Hex(if |digest| >= 16 then digest[..16] else digest)
  }

  /** Fingerprints are the whole 32-byte hash in 64 hex digits, room ids its first 16 bytes in 32. */
  lemma {:induction false} IdsExactly(suite: Suite, a: Bundle, b: Bundle)
    requires Sound(suite)
    ensures IsHex(Fingerprint(suite, a), 64) && IsHex(RoomId(suite, a, b), 32)
    ensures Unhex(Fingerprint(suite, a)) == seq(32, i requires 0 <= i < 32 => suite.hash(a.sign + a.dh)[i] as int)
    ensures Unhex(RoomId(suite, a, b)) == seq(16, i requires 0 <= i < 16 => suite.hash(PairBytes(a, b))[i] as int)
  {
    HexRoundTrip(suite.hash(BundleBytes(a)));
    HexRoundTrip(suite.hash(PairBytes(a, b))[..16]);
  }

  function Word(digest: Bytes): (r: nat)
    requires |digest| >= 4
  {
    0x100_0000 * digest[0] as nat + 0x1_0000 * digest[1] as nat + 0x100 * digest[2] as nat + digest[3] as nat
  }

  /** The leading word is the number whose big-endian bytes are the digest's first four. */
  lemma {:induction false} WordExactly(digest: Bytes)
    requires |digest| >= 4
    ensures Word(digest) < U32_LIMIT && Be32(Word(digest)) == digest[..4]
  {
    var a, b, c, d := digest[0] as nat, digest[1] as nat, digest[2] as nat, digest[3] as nat;
    assert Word(digest) == 0x100 * (0x100 * (0x100 * a + b) + c) + d;
    assert Word(digest) / 0x100 == 0x100 * (0x100 * a + b) + c;
    assert (0x100 * (0x100 * a + b) + c) / 0x100 == 0x100 * a + b;
  }

  /** `value` in decimal, padded with zeros to `width` digits. */
  function Decimal(value: nat, width: nat): (r: string)
    ensures |r| == width
    ensures forall c :: c in r ==> '0' <= c <= '9'
  {
    if width == 0 then [] else Decimal(value / 10, width - 1) + [(value % 10) as char + '0']
  }

  function DecimalValue(s: string): (r: int)
  {
    if s == [] then 0 else 10 * DecimalValue(s[..|s| - 1]) + (Last(s) as int - '0' as int)
  }

  function Pow10(n: nat): (r: nat)
  {
    if n == 0 then 1 else 10 * Pow10(n - 1)
  }

  lemma {:induction false} DecimalRoundTrip(value: nat, width: nat)
    requires value < Pow10(width)
    ensures DecimalValue(Decimal(value, width)) == value
  {
    if width > 0 {
      DecimalRoundTrip(value / 10, width - 1);
      var s := Decimal(value, width);
      assert s[..|s| - 1] == Decimal(value / 10, width - 1);
    }
  }

  function SasCode(suite: Suite, nonce: Bytes, a: Bundle, b: Bundle): (r: string)
    requires |suite.hash(SAS_DOMAIN + nonce + PairBytes(a, b))| >= 4
  {
    Decimal(Word(suite.hash(SAS_DOMAIN + nonce + PairBytes(a, b))) % 1_000_000, 6)
  }

  /** Offerer and claimer, each naming itself first, derive the same room and the same six digits,
      and the digits are those of the digest's leading word modulo a million. */
  lemma {:induction false} RoomAndSasSymmetric(suite: Suite, nonce: Bytes, a: Bundle, b: Bundle)
    requires Sound(suite) && WellFormed(a) && WellFormed(b)
    ensures RoomId(suite, a, b) == RoomId(suite, b, a)
    ensures SasCode(suite, nonce, a, b) == SasCode(suite, nonce, b, a)
    ensures DecimalValue(SasCode(suite, nonce, a, b))
              == Word(suite.hash(SAS_DOMAIN + nonce + PairBytes(a, b))) % 1_000_000
  {
    PairBytesUnordered(a, b, b, a);
    assert Pow10(6) == 1_000_000 by {
      assert Pow10(1) == 10 && Pow10(2) == 100 && Pow10(3) == 1000 && Pow10(4) == 10_000 && Pow10(5) == 100_000;
    }
    DecimalRoundTrip(Word(suite.hash(SAS_DOMAIN + nonce + PairBytes(a, b))) % 1_000_000, 6);
  }

  /** The hashed SAS input determines the nonce and the unordered pair, for nonces of one length. */
  lemma {:induction false} SasInputInjective(n: Bytes, a: Bundle, b: Bundle, n': Bytes, c: Bundle, d: Bundle)
    requires |n| == |n'| && WellFormed(a) && WellFormed(b) && WellFormed(c) && WellFormed(d)
    requires SAS_DOMAIN + n + PairBytes(a, b) == SAS_DOMAIN + n' + PairBytes(c, d)
    ensures n == n' && ((a == c && b == d) || (a == d && b == c))
  {
    var p, q := SAS_DOMAIN + n + PairBytes(a, b), SAS_DOMAIN + n' + PairBytes(c, d);
    var k := |SAS_DOMAIN|;
    assert p[k..k + |n|] == n && q[k..k + |n|] == n';
    assert p[k + |n|..] == PairBytes(a, b) && q[k + |n|..] == PairBytes(c, d);
    PairBytesUnordered(a, b, c, d);
  }

  // ---- Directional session keys ----

  datatype Identity = Identity(sign: Bytes, dhSecret: Bytes, generation: nat)

  function PublicBundle(suite: Suite, id: Identity): (r: Bundle)
  {
    Bundle(suite.public(id.sign), suite.public(id.dhSecret))
  }

  datatype Keys = Keys(send: Bytes, recv: Bytes)

  predicate Contributory(shared: Bytes)
  {
    exists b :: b in shared && b != 0
  }

  function DeriveKey(suite: Suite, shared: Bytes, info: Bytes, direction: string): (r: Bytes)
  {
    suite.expand(shared, info + Ascii(direction))
  }

  function SessionKeys(suite: Suite, self: Identity, peer: Bundle): (r: Option<Keys>)
  {
    var selfFp, peerFp := Fingerprint(suite, PublicBundle(suite, self)), Fingerprint(suite, peer);
    var shared := suite.dh(self.dhSecret, peer.dh);
    if selfFp == peerFp || !Contributory(shared) then None
    else
      var selfIsA := LexLe(selfFp, peerFp);
      var info := HKDF_DOMAIN + (if selfIsA then selfFp + peerFp else peerFp + selfFp);
      var a2b, b2a := DeriveKey(suite, shared, info, "a2b"), DeriveKey(suite, shared, info, "b2a");
      Some(if selfIsA then Keys(a2b, b2a) else Keys(b2a, a2b))
  }

  /** Each side's send key is the other side's receive key, and one side is refused exactly when the
      other is. */
  lemma {:induction false} SessionKeysAgree(suite: Suite, a: Identity, b: Identity)
    requires Sound(suite)
    ensures var ka, kb := SessionKeys(suite, a, PublicBundle(suite, b)), SessionKeys(suite, b, PublicBundle(suite, a));
            && (ka.Some? <==> kb.Some?)
            && (ka.Some? ==> ka.value.send == kb.value.recv && ka.value.recv == kb.value.send)
  {
    LexTotal(Fingerprint(suite, PublicBundle(suite, a)), Fingerprint(suite, PublicBundle(suite, b)));
  }

  /** The two directions expand different inputs, so a collision-free expansion gives distinct keys. */
  lemma {:induction false} DirectionsExpandDistinctInputs(info: Bytes)
    ensures info + Ascii("a2b") != info + Ascii("b2a")
  {
    assert (info + Ascii("a2b"))[|info|] == 97 && (info + Ascii("b2a"))[|info|] == 98;
  }

  /** No two inputs expand to the same key. */
  ghost predicate CollisionFree(suite: Suite)
  {
    forall s, i, s', i' :: suite.expand(s, i) == suite.expand(s', i') ==> s == s' && i == i'
  }

  /** The direction from the first to the second of two identities, as it enters the expansion. */
  function DirectionInfo(from: Bytes, to: Bytes): (info: Bytes)
  {
    HKDF_DOMAIN + (if LexLe(from, to) then from + to + Ascii("a2b") else to + from + Ascii("b2a"))
  }

  lemma {:induction false} DirectionInfoInjective(a: Bytes, b: Bytes, c: Bytes, d: Bytes)
    requires |a| == |b| == |c| == |d| && a != b && c != d && DirectionInfo(a, b) == DirectionInfo(c, d)
    ensures a == c && b == d
  {
    LexTotal(a, b);
    LexTotal(c, d);
    var n, k, p, q := |a|, |HKDF_DOMAIN|, DirectionInfo(a, b), DirectionInfo(c, d);
    var (x, y) := if LexLe(a, b) then (a, b) else (b, a);
    var (u, v) := if LexLe(c, d) then (c, d) else (d, c);
    assert p[k..k + n] == x && p[k + n..k + 2 * n] == y;
    assert q[k..k + n] == u && q[k + n..k + 2 * n] == v;
    assert p[k + 2 * n] == if LexLe(a, b) then 97 else 98;
    assert q[k + 2 * n] == if LexLe(c, d) then 97 else 98;
  }

  /** A device gets keys exactly if the peer is another identity and the shared secret is not all zeros; its send key is
      that of the direction from it to the peer, its receive key that of the opposite direction. */
  lemma {:induction false} SessionKeysExactly(suite: Suite, self: Identity, peer: Bundle)
    ensures var mine, theirs := Fingerprint(suite, PublicBundle(suite, self)), Fingerprint(suite, peer);
            var shared, keys := suite.dh(self.dhSecret, peer.dh), SessionKeys(suite, self, peer);
            && (keys.None? <==> mine == theirs || forall b :: b in shared ==> b == 0)
            && (keys.Some? ==> keys.value == Keys(suite.expand(shared, DirectionInfo(mine, theirs)),
                                                  suite.expand(shared, DirectionInfo(theirs, mine))))
  {
    var mine, theirs := Fingerprint(suite, PublicBundle(suite, self)), Fingerprint(suite, peer);
    LexTotal(mine, theirs);
    var (x, y) := if LexLe(mine, theirs) then (mine, theirs) else (theirs, mine);
    Regrouped(x, y, Ascii("a2b"));
    Regrouped(x, y, Ascii("b2a"));
  }

  lemma {:induction false} Regrouped(x: Bytes, y: Bytes, direction: Bytes)
    ensures HKDF_DOMAIN + (x + y) + direction == HKDF_DOMAIN + (x + y + direction)
  {
  }

  /** With an expansion free of collisions a key belongs to one direction between two identities: nobody seals and opens
      with the same key, and two devices share a key only if they are the two ends of that direction, or the same
      identity at the same end of it. */
  lemma {:induction false} KeyHasOneDirection(suite: Suite, a: Identity, p: Bundle, b: Identity, q: Bundle)
    requires Sound(suite) && CollisionFree(suite)
    requires SessionKeys(suite, a, p).Some? && SessionKeys(suite, b, q).Some?
    ensures var x, y := SessionKeys(suite, a, p).value, SessionKeys(suite, b, q).value;
            var fa, fb := Fingerprint(suite, PublicBundle(suite, a)), Fingerprint(suite, PublicBundle(suite, b));
            && x.send != x.recv
            && (x.send == y.send || x.recv == y.recv ==> fa == fb && Fingerprint(suite, p) == Fingerprint(suite, q))
            && (x.send == y.recv ==> fa == Fingerprint(suite, q) && Fingerprint(suite, p) == fb)
  {
    SessionKeysExactly(suite, a, p);
    SessionKeysExactly(suite, b, q);
    IdsExactly(suite, PublicBundle(suite, a), p);
    IdsExactly(suite, PublicBundle(suite, b), q);
    IdsExactly(suite, p, q);
    IdsExactly(suite, q, p);
    var fa, fb := Fingerprint(suite, PublicBundle(suite, a)), Fingerprint(suite, PublicBundle(suite, b));
    var fp, fq := Fingerprint(suite, p), Fingerprint(suite, q);
    DirectionsApart(fa, fp, fb, fq);
    DirectionsApart(fa, fp, fa, fp);
  }

  lemma {:induction false} DirectionsApart(a: Bytes, b: Bytes, c: Bytes, d: Bytes)
    requires |a| == |b| == |c| == |d| && a != b && c != d
    ensures DirectionInfo(a, b) == DirectionInfo(c, d) ==> a == c && b == d
    ensures DirectionInfo(b, a) == DirectionInfo(d, c) ==> a == c && b == d
    ensures DirectionInfo(a, b) == DirectionInfo(d, c) ==> a == d && b == c
  {
    if DirectionInfo(a, b) == DirectionInfo(c, d) {
      DirectionInfoInjective(a, b, c, d);
    }
    if DirectionInfo(b, a) == DirectionInfo(d, c) {
      DirectionInfoInjective(b, a, d, c);
    }
    if DirectionInfo(a, b) == DirectionInfo(d, c) {
      DirectionInfoInjective(a, b, d, c);
    }
  }
}

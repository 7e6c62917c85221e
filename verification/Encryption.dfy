/**
 Backup encryption: PKCS#7 padding (section 6.3 of RFC 5652), CBC chaining with a prepended IV
 (section 6.2 of NIST SP 800-38A) and nonce-prepended GCM (sections 7.1 and 7.2 of NIST SP 800-38D).
 The block cipher is any permutation of 16-byte blocks, the AEAD any pair of inverse functions.
 */
module Encryption {
  import opened Text

  type Bytes = seq<bv8>

  const BLOCK: nat := 16
  const NONCE: nat := 12

  datatype Cipher = Cipher(enc: Bytes -> Bytes, dec: Bytes -> Bytes)

  ghost predicate Permutation(c: Cipher) {
    forall b: Bytes :: Inverse(c, b)
  }

  ghost predicate Inverse(c: Cipher, b: Bytes) {
    |b| == BLOCK ==> |c.enc(b)| == BLOCK && |c.dec(b)| == BLOCK && c.dec(c.enc(b)) == b && c.enc(c.dec(b)) == b
  }

  // ----- CBC -----------------------------------------------------------------------------------------

  function XorBlock(x: Bytes, y: Bytes): (r: Bytes)
    requires |x| == |y|
    ensures |r| == |x| && forall i :: 0 <= i < |x| ==> r[i] == x[i] ^ y[i]
  {
    seq(|x|, i requires 0 <= i < |x| => x[i] ^ y[i])
  }

  lemma XorTwice(x: Bytes, y: Bytes)
    requires |x| == |y|
    ensures XorBlock(XorBlock(x, y), y) == x
  {
    forall i | 0 <= i < |x| ensures XorBlock(XorBlock(x, y), y)[i] == x[i] {
      assert (x[i] ^ y[i]) ^ y[i] == x[i];
    }
  }

  function CbcEncrypt(c: Cipher, iv: Bytes, p: Bytes): (r: Bytes)
    requires Permutation(c) && |iv| == BLOCK && |p| % BLOCK == 0
    ensures |r| == |p|
    decreases |p|
  {
    if p == [] then [] else
      var m := XorBlock(p[..BLOCK], iv);
      assert Inverse(c, m);
      var x := c.enc(m);
      x + CbcEncrypt(c, x, p[BLOCK..])
  }

  function CbcDecrypt(c: Cipher, iv: Bytes, ct: Bytes): (r: Bytes)
    requires Permutation(c) && |iv| == BLOCK && |ct| % BLOCK == 0
    ensures |r| == |ct|
    decreases |ct|
  {
    if ct == [] then [] else
      assert Inverse(c, ct[..BLOCK]);
      XorBlock(c.dec(ct[..BLOCK]), iv) + CbcDecrypt(c, ct[..BLOCK], ct[BLOCK..])
  }

  /** Block number `i`. */
  function Block(x: Bytes, i: nat): (b: Bytes)
    requires (i + 1) * BLOCK <= |x|
    ensures |b| == BLOCK
  {
    x[i * BLOCK..(i + 1) * BLOCK]
  }

  /** Block number `i` of what follows the first block. */
  lemma BlockOfTail(x: Bytes, i: nat)
    requires (i + 2) * BLOCK <= |x|
    ensures Block(x[BLOCK..], i) == Block(x, i + 1)
  {}

  /** The equations of CBC encryption: each block is combined with the ciphertext block before it. */
  lemma {:induction false} CbcEncryptBlock(c: Cipher, iv: Bytes, p: Bytes, i: nat)
    requires Permutation(c) && |iv| == BLOCK && |p| % BLOCK == 0 && (i + 1) * BLOCK <= |p|
    ensures var ct := CbcEncrypt(c, iv, p);
            Block(ct, i) == c.enc(XorBlock(Block(p, i), if i == 0 then iv else Block(ct, i - 1)))
    decreases i
  {
    var ct := CbcEncrypt(c, iv, p);
    var x := c.enc(XorBlock(p[..BLOCK], iv));
    assert Inverse(c, XorBlock(p[..BLOCK], iv));
    assert ct[..BLOCK] == x && ct[BLOCK..] == CbcEncrypt(c, x, p[BLOCK..]);
    if i == 0 {
    } else {
      CbcEncryptBlock(c, x, p[BLOCK..], i - 1);
      BlockOfTail(p, i - 1);
      BlockOfTail(ct, i - 1);
      if i > 1 {
        BlockOfTail(ct, i - 2);
      }
    }
  }

  /** The equations of CBC decryption. */
  lemma {:induction false} CbcDecryptBlock(c: Cipher, iv: Bytes, ct: Bytes, i: nat)
    requires Permutation(c) && |iv| == BLOCK && |ct| % BLOCK == 0 && (i + 1) * BLOCK <= |ct|
    ensures Inverse(c, Block(ct, i))
    ensures Block(CbcDecrypt(c, iv, ct), i) == XorBlock(c.dec(Block(ct, i)), if i == 0 then iv else Block(ct, i - 1))
    decreases i
  {
    assert Inverse(c, Block(ct, i));
    var p := CbcDecrypt(c, iv, ct);
    assert Inverse(c, ct[..BLOCK]);
    assert p[..BLOCK] == XorBlock(c.dec(ct[..BLOCK]), iv);
    assert p[BLOCK..] == CbcDecrypt(c, ct[..BLOCK], ct[BLOCK..]);
    if i == 0 {
    } else {
      CbcDecryptBlock(c, ct[..BLOCK], ct[BLOCK..], i - 1);
      BlockOfTail(p, i - 1);
      BlockOfTail(ct, i - 1);
      if i > 1 {
        BlockOfTail(ct, i - 2);
      }
    }
  }

  /** Chaining is undone by chaining back. */
  lemma {:induction false} CbcDecryptsEncrypted(c: Cipher, iv: Bytes, p: Bytes)
    requires Permutation(c) && |iv| == BLOCK && |p| % BLOCK == 0
    ensures CbcDecrypt(c, iv, CbcEncrypt(c, iv, p)) == p
    decreases |p|
  {
    if p == [] {
    } else {
      var m := XorBlock(p[..BLOCK], iv);
      var x := c.enc(m);
      var ct := CbcEncrypt(c, iv, p);
      assert ct[..BLOCK] == x && ct[BLOCK..] == CbcEncrypt(c, x, p[BLOCK..]);
      CbcDecryptsEncrypted(c, x, p[BLOCK..]);
      assert Inverse(c, m);
      XorTwice(p[..BLOCK], iv);
      assert p == p[..BLOCK] + p[BLOCK..];
    }
  }

  /** And every ciphertext is the chaining of what it decrypts to. */
  lemma {:induction false} CbcEncryptsDecrypted(c: Cipher, iv: Bytes, ct: Bytes)
    requires Permutation(c) && |iv| == BLOCK && |ct| % BLOCK == 0
    ensures CbcEncrypt(c, iv, CbcDecrypt(c, iv, ct)) == ct
    decreases |ct|
  {
    if ct == [] {
    } else {
      var m := c.dec(ct[..BLOCK]);
      var p := CbcDecrypt(c, iv, ct);
      assert p[..BLOCK] == XorBlock(m, iv) && p[BLOCK..] == CbcDecrypt(c, ct[..BLOCK], ct[BLOCK..]);
      XorTwice(m, iv);
      assert Inverse(c, ct[..BLOCK]);
      CbcEncryptsDecrypted(c, ct[..BLOCK], ct[BLOCK..]);
      assert ct == ct[..BLOCK] + ct[BLOCK..];
    }
  }

  // ----- Padding -------------------------------------------------------------------------------------

  function PadLength(n: nat): (k: nat)
    ensures 1 <= k <= BLOCK && (n + k) % BLOCK == 0 && n + k == BLOCK * (n / BLOCK + 1)
  {
    BLOCK - n % BLOCK
  }

  /** `p` followed by k bytes of value k. */
  function Padded(p: Bytes): (r: Bytes)
    ensures |r| == BLOCK * (|p| / BLOCK + 1)
  {
    p + seq(PadLength(|p|), _ => PadLength(|p|) as bv8)
  }

  /** Removes the padding if the last byte announces one that is really there. */
  function Unpadded(x: Bytes): Option<Bytes> {
    if x == [] then None else
      var k := x[|x| - 1] as nat;
      if k == 0 || k > BLOCK || k > |x| || exists i :: |x| - k <= i < |x| && x[i] != x[|x| - 1] then None
      else Some(x[..|x| - k])
  }

  /** Padding byte by byte: as many bytes as are missing to a full block, at least one, each that number. */
  lemma PaddedBytes(p: Bytes)
    ensures var x, k := Padded(p), |Padded(p)| - |p|;
            && |x| % BLOCK == 0 && 1 <= k <= BLOCK && x[..|p|] == p
            && forall i :: |p| <= i < |x| ==> x[i] as nat == k
  {
    ByteOfNat(PadLength(|p|));
  }

  lemma ByteOfNat(k: nat)
    requires k <= BLOCK
    ensures k as bv8 as nat == k
  {
    match k
    case 0 => case 1 => case 2 => case 3 => case 4 => case 5 => case 6 => case 7 => case 8 =>
    case 9 => case 10 => case 11 => case 12 => case 13 => case 14 => case 15 => case 16 =>
  }

  lemma UnpadPadded(p: Bytes)
    ensures Unpadded(Padded(p)) == Some(p)
  {
    var k, x := PadLength(|p|), Padded(p);
    ByteOfNat(k);
    assert forall i :: |p| <= i < |x| ==> x[i] == k as bv8;
    assert x[..|p|] == p;
  }

  lemma PadUnpadded(x: Bytes, p: Bytes)
    requires |x| % BLOCK == 0 && Unpadded(x) == Some(p)
    ensures x == Padded(p)
  {
    var k := x[|x| - 1] as nat;
    assert |p| == |x| - k && p == x[..|x| - k];
    assert PadLength(|p|) == k;
    assert forall i :: |p| <= i < |x| ==> x[i] == x[|x| - 1];
    assert x[|x| - 1] == k as bv8;
    assert x == x[..|p|] + x[|p|..];
    assert x[|p|..] == seq(k, _ => k as bv8);
  }

  // ----- The CBC encryptor ---------------------------------------------------------------------------

  function CbcSeal(c: Cipher, iv: Bytes, p: Bytes): (r: Bytes)
    requires Permutation(c) && |iv| == BLOCK
    ensures |r| == BLOCK * (|p| / BLOCK + 2)
  {
    iv + CbcEncrypt(c, iv, Padded(p))
  }

  function CbcOpen(c: Cipher, ct: Bytes): Option<Bytes>
    requires Permutation(c)
  {
    if |ct| < 2 * BLOCK || |ct| % BLOCK != 0 then None
    else Unpadded(CbcDecrypt(c, ct[..BLOCK], ct[BLOCK..]))
  }

  lemma Framed(iv: Bytes, body: Bytes)
    requires |iv| == BLOCK && |body| % BLOCK == 0 && |body| >= BLOCK
    ensures var ct := iv + body;
            ct[..BLOCK] == iv && ct[BLOCK..] == body && |ct| >= 2 * BLOCK && |ct| % BLOCK == 0
  {}

  /** The IV goes first, and every block behind it is the padded message's, combined with the one before. */
  ghost predicate Chained(c: Cipher, iv: Bytes, p: Bytes, ct: Bytes)
    requires Permutation(c) && |iv| == BLOCK
  {
    && |ct| == |Padded(p)| + BLOCK && ct[..BLOCK] == iv
    && forall i: nat :: (i + 1) * BLOCK <= |Padded(p)| ==> Link(c, Padded(p), ct, i)
  }

  ghost predicate Link(c: Cipher, padded: Bytes, ct: Bytes, i: nat)
    requires (i + 1) * BLOCK <= |padded| && |ct| == |padded| + BLOCK
  {
    Block(ct, i + 1) == c.enc(XorBlock(Block(padded, i), Block(ct, i)))
  }

  lemma SealIsChained(c: Cipher, iv: Bytes, p: Bytes)
    requires Permutation(c) && |iv| == BLOCK
    ensures Chained(c, iv, p, CbcSeal(c, iv, p))
  {
    var padded, ct := Padded(p), CbcSeal(c, iv, p);
    var body := CbcEncrypt(c, iv, padded);
    assert ct[..BLOCK] == iv && ct[BLOCK..] == body;
    forall i: nat | (i + 1) * BLOCK <= |padded| ensures Link(c, padded, ct, i) {
      CbcEncryptBlock(c, iv, padded, i);
      BlockOfTail(ct, i);
      if i > 0 {
        BlockOfTail(ct, i - 1);
      }
    }
  }

  /** What opening does to an IV and a ciphertext behind it. */
  lemma OpenParts(c: Cipher, iv: Bytes, body: Bytes, ct: Bytes, p: Bytes)
    requires Permutation(c) && |iv| == BLOCK && |body| % BLOCK == 0
    requires |ct| >= 2 * BLOCK && |ct| % BLOCK == 0 && ct[..BLOCK] == iv && ct[BLOCK..] == body
    requires CbcDecrypt(c, iv, body) == p
    ensures CbcOpen(c, ct) == Unpadded(p)
  {}

  lemma CbcOpenSeal(c: Cipher, iv: Bytes, p: Bytes)
    requires Permutation(c) && |iv| == BLOCK
    ensures CbcOpen(c, CbcSeal(c, iv, p)) == Some(p)
  {
    var padded := Padded(p);
    var body := CbcEncrypt(c, iv, padded);
    Framed(iv, body);
    CbcDecryptsEncrypted(c, iv, padded);
    OpenParts(c, iv, body, iv + body, padded);
    UnpadPadded(p);
  }

  /** Decryption accepts exactly the encryptions, and each as the one message it encrypts. */
  lemma CbcAcceptsExactly(c: Cipher, ct: Bytes, p: Bytes)
    requires Permutation(c)
    ensures CbcOpen(c, ct) == Some(p) <==> |ct| >= BLOCK && ct == CbcSeal(c, ct[..BLOCK], p)
  {
    if CbcOpen(c, ct) == Some(p) {
      var iv, body := ct[..BLOCK], ct[BLOCK..];
      PadUnpadded(CbcDecrypt(c, iv, body), p);
      CbcEncryptsDecrypted(c, iv, body);
      assert ct == iv + body;
    } else if |ct| >= BLOCK && ct == CbcSeal(c, ct[..BLOCK], p) {
      CbcOpenSeal(c, ct[..BLOCK], p);
    }
  }

  /** Chaining back from the middle yields the same blocks. */
  lemma {:induction false} CbcDecryptTail(c: Cipher, iv: Bytes, ct: Bytes, m: nat)
    requires Permutation(c) && |iv| == BLOCK && |ct| % BLOCK == 0 && 1 <= m && m * BLOCK <= |ct|
    ensures CbcDecrypt(c, ct[(m - 1) * BLOCK..m * BLOCK], ct[m * BLOCK..]) == CbcDecrypt(c, iv, ct)[m * BLOCK..]
    decreases m
  {
    var head, tail := ct[..BLOCK], ct[BLOCK..];
    var x := CbcDecrypt(c, iv, ct);
    assert x[BLOCK..] == CbcDecrypt(c, head, tail);
    if m == 1 {
    } else {
      CbcDecryptTail(c, head, tail, m - 1);
      assert tail[(m - 2) * BLOCK..(m - 1) * BLOCK] == ct[(m - 1) * BLOCK..m * BLOCK];
      assert tail[(m - 1) * BLOCK..] == ct[m * BLOCK..];
      assert x[BLOCK..][(m - 1) * BLOCK..] == x[m * BLOCK..];
    }
  }

  lemma PaddedTail(p: Bytes, m: nat)
    requires m * BLOCK <= |p|
    ensures Padded(p)[m * BLOCK..] == Padded(p[m * BLOCK..])
  {
    assert PadLength(|p| - m * BLOCK) == PadLength(|p|);
  }

  /** A sealed message that has lost its first blocks opens to the rest of the message, if two blocks are left. */
  lemma CbcAfterBlocks(c: Cipher, iv: Bytes, p: Bytes, m: nat)
    requires Permutation(c) && |iv| == BLOCK && 1 <= m && m * BLOCK <= |p|
    ensures CbcOpen(c, CbcSeal(c, iv, p)[m * BLOCK..]) == Some(p[m * BLOCK..])
  {
    var padded := Padded(p);
    var body := CbcEncrypt(c, iv, padded);
    var iv', rest := body[(m - 1) * BLOCK..m * BLOCK], body[m * BLOCK..];
    assert (iv + body)[m * BLOCK..] == iv' + rest;
    CbcDecryptsEncrypted(c, iv, padded);
    CbcDecryptTail(c, iv, body, m);
    PaddedTail(p, m);
    Framed(iv', rest);
    OpenParts(c, iv', rest, iv' + rest, Padded(p[m * BLOCK..]));
    UnpadPadded(p[m * BLOCK..]);
  }

  /** What is left of a sealed message opens exactly if it starts at a block and has two blocks. */
  lemma CbcAfterLoss(c: Cipher, iv: Bytes, p: Bytes, lost: nat)
    requires Permutation(c) && |iv| == BLOCK && 1 <= lost <= |CbcSeal(c, iv, p)|
    ensures var ct := CbcSeal(c, iv, p);
            CbcOpen(c, ct[lost..]) == if lost % BLOCK == 0 && |ct| - lost >= 2 * BLOCK then Some(p[lost..]) else None
  {
    var ct := CbcSeal(c, iv, p);
    if lost % BLOCK == 0 && |ct| - lost >= 2 * BLOCK {
      var m := lost / BLOCK;
      assert m * BLOCK == lost;
      CbcAfterBlocks(c, iv, p, m);
    } else {
      assert (|ct| - lost) % BLOCK == 0 <==> lost % BLOCK == 0;
    }
  }

  /** Pads into a fresh buffer, then chains behind the IV; without entropy nothing is produced. */
  method CbcEncryptMessage(c: Cipher, plaintext: Bytes, entropy: Option<Bytes>) returns (r: Option<Bytes>)
    requires Permutation(c) && (entropy.Some? ==> |entropy.value| == BLOCK)
    ensures entropy.None? ==> r == None
    ensures entropy.Some? ==> r == Some(CbcSeal(c, entropy.value, plaintext))
    ensures entropy.Some? ==> Chained(c, entropy.value, plaintext, r.value)
  {
    if entropy.Some? {
      SealIsChained(c, entropy.value, plaintext);
    }
    var padding := BLOCK - |plaintext| % BLOCK;
    var padtext := new bv8[|plaintext| + padding](i requires 0 <= i < |plaintext| + padding =>
      if i < |plaintext| then plaintext[i] else 0);
    var i := |plaintext|;
    while i < padtext.Length
      invariant |plaintext| <= i <= padtext.Length
      invariant padtext[..|plaintext|] == plaintext
      invariant forall j :: |plaintext| <= j < i ==> padtext[j] == padding as bv8
    {
      padtext[i] := padding as bv8;
      i := i + 1;
    }
    if entropy.None? {
      return None;
    }
    assert padtext[..] == Padded(plaintext);
    r := Some(entropy.value + CbcEncrypt(c, entropy.value, padtext[..]));
  }

  /** Checks lengths, chains back and checks every padding byte; no input makes it index out of range. */
  method CbcDecryptMessage(c: Cipher, ciphertext: Bytes) returns (r: Option<Bytes>)
    requires Permutation(c)
    ensures r == CbcOpen(c, ciphertext)
    ensures forall p :: r == Some(p) <==> |ciphertext| >= BLOCK && ciphertext == CbcSeal(c, ciphertext[..BLOCK], p)
  {
    forall p
      ensures CbcOpen(c, ciphertext) == Some(p) <==>
              |ciphertext| >= BLOCK && ciphertext == CbcSeal(c, ciphertext[..BLOCK], p)
    {
      CbcAcceptsExactly(c, ciphertext, p);
    }
    if |ciphertext| < BLOCK * 2 || |ciphertext| % BLOCK != 0 {
      return None;
    }
    r := RemovePadding(CbcDecrypt(c, ciphertext[..BLOCK], ciphertext[BLOCK..]));
  }

  /** The announced padding must be there to the last byte. */
  method RemovePadding(plaintext: Bytes) returns (r: Option<Bytes>)
    requires |plaintext| >= BLOCK
    ensures r == Unpadded(plaintext)
  {
    var padding := plaintext[|plaintext| - 1] as nat;
    if padding > BLOCK || padding == 0 {
      return None;
    }
    var i := |plaintext| - padding;
    while i < |plaintext|
      invariant |plaintext| - padding <= i <= |plaintext|
      invariant forall j :: |plaintext| - padding <= j < i ==> plaintext[j] == plaintext[|plaintext| - 1]
    {
      if plaintext[i] != plaintext[|plaintext| - 1] {
        return None;
      }
      i := i + 1;
    }
    r := Some(plaintext[..|plaintext| - padding]);
  }

  // ----- The GCM encryptor ---------------------------------------------------------------------------

  datatype Aead = Aead(seal: (Bytes, Bytes) -> Bytes, open: (Bytes, Bytes) -> Option<Bytes>)

  /** Opening undoes sealing and accepts nothing else. */
  ghost predicate Authentic(a: Aead) {
    forall n: Bytes, x: Bytes, p: Bytes :: a.open(n, x) == Some(p) <==> x == a.seal(n, p)
  }

  function GcmSeal(a: Aead, nonce: Bytes, p: Bytes): Bytes {
    nonce + a.seal(nonce, p)
  }

  function GcmOpen(a: Aead, ct: Bytes): Option<Bytes> {
    if |ct| < NONCE then None else a.open(ct[..NONCE], ct[NONCE..])
  }

  /** The nonce goes first, the sealed message behind it. */
  lemma GcmFrame(a: Aead, nonce: Bytes, p: Bytes)
    requires |nonce| == NONCE
    ensures GcmSeal(a, nonce, p)[..NONCE] == nonce && GcmSeal(a, nonce, p)[NONCE..] == a.seal(nonce, p)
  {}

  lemma GcmAcceptsExactly(a: Aead, ct: Bytes, p: Bytes)
    requires Authentic(a)
    ensures GcmOpen(a, ct) == Some(p) <==> |ct| >= NONCE && ct == GcmSeal(a, ct[..NONCE], p)
  {
    if |ct| >= NONCE {
      var n, x := ct[..NONCE], ct[NONCE..];
      assert ct == n + x;
      assert (n + a.seal(n, p))[NONCE..] == a.seal(n, p);
      assert a.open(n, x) == Some(p) <==> x == a.seal(n, p);
    }
  }

  // ----- Any encryptor ---------------------------------------------------------------------------------

  datatype Encryptor = NoEncryption | CbcMode(cipher: Cipher) | GcmMode(aead: Aead)

  ghost predicate Sound(e: Encryptor) {
    match e
    case NoEncryption => true
    case CbcMode(c) => Permutation(c)
    case GcmMode(a) => Authentic(a)
  }

  function EntropySize(e: Encryptor): nat {
    match e
    case NoEncryption => 0
    case CbcMode(_) => BLOCK
    case GcmMode(_) => NONCE
  }

  function Encrypted(e: Encryptor, entropy: Bytes, p: Bytes): Bytes
    requires Sound(e) && |entropy| == EntropySize(e)
  {
    match e
    case NoEncryption => p
    case CbcMode(c) => CbcSeal(c, entropy, p)
    case GcmMode(a) => GcmSeal(a, entropy, p)
  }

  function Decrypted(e: Encryptor, ct: Bytes): Option<Bytes>
    requires Sound(e)
  {
    match e
    case NoEncryption => Some(ct)
    case CbcMode(c) => CbcOpen(c, ct)
    case GcmMode(a) => GcmOpen(a, ct)
  }

  /** Whatever the mode, decryption accepts exactly what encryption produces and recovers the message. */
  lemma DecryptsExactly(e: Encryptor, ct: Bytes, p: Bytes)
    requires Sound(e)
    ensures Decrypted(e, ct) == Some(p) <==>
            |ct| >= EntropySize(e) && ct == Encrypted(e, ct[..EntropySize(e)], p)
  {
    match e
    case NoEncryption =>
    case CbcMode(c) => CbcAcceptsExactly(c, ct, p);
    case GcmMode(a) => GcmAcceptsExactly(a, ct, p);
  }

  lemma DecryptsEncrypted(e: Encryptor, entropy: Bytes, p: Bytes)
    requires Sound(e) && |entropy| == EntropySize(e)
    ensures Decrypted(e, Encrypted(e, entropy, p)) == Some(p)
  {
    var ct := Encrypted(e, entropy, p);
    if !e.NoEncryption? {
      assert ct[..EntropySize(e)] == entropy;
    }
    DecryptsExactly(e, ct, p);
  }

  method Encrypt(e: Encryptor, plaintext: Bytes, entropy: Option<Bytes>) returns (r: Option<Bytes>)
    requires Sound(e) && (entropy.Some? ==> |entropy.value| == EntropySize(e))
    ensures e.NoEncryption? ==> r == Some(plaintext)
    ensures !e.NoEncryption? ==> (r.Some? <==> entropy.Some?)
    ensures !e.NoEncryption? && r.Some? ==> r.value == Encrypted(e, entropy.value, plaintext)
    ensures r.Some? ==> Decrypted(e, r.value) == Some(plaintext)
  {
    match e
    case NoEncryption =>
      r := Some(plaintext);
      assert r.value == Encrypted(e, [], plaintext);
    case CbcMode(c) =>
      r := CbcEncryptMessage(c, plaintext, entropy);
      if r.Some? {
        assert r.value == Encrypted(e, entropy.value, plaintext);
        DecryptsEncrypted(e, entropy.value, plaintext);
      }
    case GcmMode(a) =>
      if entropy.None? {
        return None;
      }
      r := Some(entropy.value + a.seal(entropy.value, plaintext));
      assert r.value == Encrypted(e, entropy.value, plaintext);
      DecryptsEncrypted(e, entropy.value, plaintext);
  }

  method Decrypt(e: Encryptor, ciphertext: Bytes) returns (r: Option<Bytes>)
    requires Sound(e)
    ensures r == Decrypted(e, ciphertext)
  {
    match e
    case NoEncryption => r := Some(ciphertext);
    case CbcMode(c) => r := CbcDecryptMessage(c, ciphertext);
    case GcmMode(a) =>
      if |ciphertext| < NONCE {
        return None;
      }
      r := a.open(ciphertext[..NONCE], ciphertext[NONCE..]);
  }
}

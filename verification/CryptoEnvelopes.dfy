/**
 The byte envelopes of ts/Crypto.node.ts for attachments and profiles. The primitives are
 parameters of which only lengths and inverses are assumed.
 */
module CryptoEnvelopes {
  import opened Wrappers

  type Bytes = seq<bv8>

  /** HMAC, hash and ciphers; a cipher that cannot decrypt returns nothing. */
  datatype Primitives = Primitives(
    hmac: (Bytes, Bytes) -> Bytes,
    sha256: Bytes -> Bytes,
    cbcEncrypt: (Bytes, Bytes, Bytes) -> Bytes,
    cbcDecrypt: (Bytes, Bytes, Bytes) -> Option<Bytes>,
    gcmEncrypt: (Bytes, Bytes, Bytes) -> Bytes,
    gcmDecrypt: (Bytes, Bytes, Bytes) -> Option<Bytes>)
  {
    ghost predicate Lawful() {
      && (forall k, d :: |hmac(k, d)| == 32)
      && (forall d :: |sha256(d)| == 32)
      && (forall k, p, iv :: |k| == 32 && |iv| == 16 ==> cbcDecrypt(k, cbcEncrypt(k, p, iv), iv) == Some(p))
      && (forall k, iv, p :: |k| == 32 && |iv| == 12 ==> |gcmEncrypt(k, iv, p)| == |p| + 16)
      && (forall k, iv, p :: |k| == 32 && |iv| == 12 ==> gcmDecrypt(k, iv, gcmEncrypt(k, iv, p)) == Some(p))
    }
  }

  datatype Failure =
    | BadKeyLength
    | BadLength
    | BadMacLength
    | BadMac
    | BadDigest
    | CannotDecrypt
    | BadPadding
    | Oversized

  datatype Result<T> = Ok(value: T) | Err(failure: Failure)

  function Zeroes(n: nat): (r: Bytes)
    ensures |r| == n && forall i :: 0 <= i < n ==> r[i] == 0
  {
    seq(n, i => 0)
  }

  // ---------------------------------------------------------------- comparing

  lemma XorIsZero(a: bv8, b: bv8, acc: bv8)
    ensures (acc | (a ^ b)) == 0 <==> acc == 0 && a == b
  {}

  /** `verifyHmacSha256`: the loop that ORs the XORs accepts exactly the first `length` bytes of our MAC. */
  method VerifyHmacSha256(
    c: Primitives, plaintext: Bytes, key: Bytes, theirMac: Bytes, length: nat)
    returns (r: Result<()>)
    ensures r == Err(BadMacLength) <==> |theirMac| != length || |c.hmac(key, plaintext)| < length
    ensures r.Ok? <==> length <= |c.hmac(key, plaintext)| && theirMac == c.hmac(key, plaintext)[..length]
    ensures r.Ok? || r == Err(BadMacLength) || r == Err(BadMac)
  {
    var ourMac := c.hmac(key, plaintext);
    if |theirMac| != length || |ourMac| < length { return Err(BadMacLength); }
    var result: bv8 := 0;
    for i := 0 to |theirMac|
      invariant result == 0 <==> forall k :: 0 <= k < i ==> ourMac[k] == theirMac[k]
    {
      XorIsZero(ourMac[i], theirMac[i], result);
      result := result | (ourMac[i] ^ theirMac[i]);
    }
    if result != 0 { return Err(BadMac); }
    assert theirMac == ourMac[..length];
    return Ok(());
  }

  /** Bytes past the end of our digest count as zero. */
  function ByteAt(s: Bytes, i: nat): bv8 { if i < |s| then s[i] else 0 }

  /** A digest is accepted if every byte it has agrees with ours. */
  predicate DigestAccepted(ours: Bytes, theirs: Bytes) {
    forall i :: 0 <= i < |theirs| ==> theirs[i] == ByteAt(ours, i)
  }

  /** `verifyDigest`: the loop runs over their digest, whatever its length. */
  method VerifyDigest(c: Primitives, data: Bytes, theirDigest: Bytes) returns (ok: bool)
    ensures ok == DigestAccepted(c.sha256(data), theirDigest)
  {
    var ourDigest := c.sha256(data);
    var result: bv8 := 0;
    for i := 0 to |theirDigest|
      invariant result == 0 <==> forall k :: 0 <= k < i ==> theirDigest[k] == ByteAt(ourDigest, k)
    {
      XorIsZero(ByteAt(ourDigest, i), theirDigest[i], result);
      result := result | (ByteAt(ourDigest, i) ^ theirDigest[i]);
    }
    ok := result == 0;
  }

  /** For a digest of full length that is equality; a shorter one is accepted as a prefix. */
  lemma DigestAcceptedIff(ours: Bytes, theirs: Bytes)
    requires |theirs| <= |ours|
    ensures DigestAccepted(ours, theirs) <==> theirs == ours[..|theirs|]
  {}

  // ---------------------------------------------------------------- attachments

  datatype Encrypted = Encrypted(ciphertext: Bytes, digest: Bytes)

  /** `encryptAttachment` with the random initialization vector as a parameter. */
  function EncryptAttachment(c: Primitives, plaintext: Bytes, keys: Bytes, iv: Bytes): Result<Encrypted> {
    if |keys| != 64 then Err(BadKeyLength)
    else
      var ivAndCiphertext := iv + c.cbcEncrypt(keys[..32], plaintext, iv);
      var encryptedBin := ivAndCiphertext + c.hmac(keys[32..64], ivAndCiphertext);
      Ok(Encrypted(encryptedBin, c.sha256(encryptedBin)))
  }

  /** `padAndEncryptAttachment` for the size its logarithmic rule computes. */
  function PadAndEncryptAttachment(
    c: Primitives, plaintext: Bytes, keys: Bytes, iv: Bytes, paddedSize: int): Result<Encrypted>
  {
    if paddedSize < |plaintext| then Err(BadPadding)
    else EncryptAttachment(c, plaintext + Zeroes(paddedSize - |plaintext|), keys, iv)
  }

  /** `decryptAttachmentV1`. */
  function DecryptAttachmentV1(c: Primitives, bin: Bytes, keys: Bytes, theirDigest: Option<Bytes>): Result<Bytes> {
    if |keys| != 64 then Err(BadKeyLength)
    else if |bin| < 16 + 32 then Err(BadLength)
    else
      var n := |bin| - 32;
      var ourMac := c.hmac(keys[32..64], bin[..n]);
      if |ourMac| < 32 then Err(BadMacLength)
      else if bin[n..] != ourMac[..32] then Err(BadMac)
      else if theirDigest.Some? && !DigestAccepted(c.sha256(bin), theirDigest.value) then Err(BadDigest)
      else
        match c.cbcDecrypt(keys[..32], bin[16..n], bin[..16])
        case Some(p) => Ok(p)
        case None => Err(CannotDecrypt)
  }

  /** It as it runs. */
  method DecryptAttachment(
    c: Primitives, bin: Bytes, keys: Bytes, theirDigest: Option<Bytes>)
    returns (r: Result<Bytes>)
    ensures r == DecryptAttachmentV1(c, bin, keys, theirDigest)
  {
    if |keys| != 64 { return Err(BadKeyLength); }
    if |bin| < 16 + 32 { return Err(BadLength); }
    var n := |bin| - 32;
    var mac := bin[n..];
    var verified := VerifyHmacSha256(c, bin[..n], keys[32..64], mac, 32);
    if verified.Err? { return Err(verified.failure); }
    if theirDigest.Some? {
      var accepted := VerifyDigest(c, bin, theirDigest.value);
      if !accepted { return Err(BadDigest); }
    }
    var plaintext := c.cbcDecrypt(keys[..32], bin[16..n], bin[..16]);
    r := if plaintext.Some? then Ok(plaintext.value) else Err(CannotDecrypt);
  }

  lemma AttachmentRoundTrip(c: Primitives, plaintext: Bytes, keys: Bytes, iv: Bytes, checked: bool)
    requires c.Lawful() && |keys| == 64 && |iv| == 16
    ensures
      var e := EncryptAttachment(c, plaintext, keys, iv);
      && e.Ok?
      && DecryptAttachmentV1(c, e.value.ciphertext, keys, if checked then Some(e.value.digest) else None)
         == Ok(plaintext)
  {
    var inner := iv + c.cbcEncrypt(keys[..32], plaintext, iv);
    var mac := c.hmac(keys[32..64], inner);
    var bin := inner + mac;
    var n := |bin| - 32;
    assert bin[..n] == inner && bin[n..] == mac && mac[..32] == mac;
    assert bin[..16] == iv && bin[16..n] == c.cbcEncrypt(keys[..32], plaintext, iv);
    DigestAcceptedIff(c.sha256(bin), c.sha256(bin));
  }

  /** Keys and attachments of the wrong length are refused before anything is computed. */
  lemma BadLengthsRefused(c: Primitives, bin: Bytes, keys: Bytes, digest: Option<Bytes>)
    requires c.Lawful()
    ensures DecryptAttachmentV1(c, bin, keys, digest) == Err(BadKeyLength) <==> |keys| != 64
    ensures DecryptAttachmentV1(c, bin, keys, digest) == Err(BadLength) <==> |keys| == 64 && |bin| < 48
    ensures DecryptAttachmentV1(c, bin, keys, digest) != Err(BadMacLength)
    ensures forall iv :: EncryptAttachment(c, bin, keys, iv).Ok? <==> |keys| == 64
  {}

  /**
   What becomes of any other attachment, taken apart: a wrong MAC over what stands before it is refused first, then a
   digest with a byte that is not ours, then what the cipher refuses; and nothing else is.
   */
  lemma DecryptsIff(c: Primitives, iv: Bytes, body: Bytes, mac: Bytes, aes: Bytes, macKey: Bytes, digest: Option<Bytes>)
    requires c.Lawful() && |iv| == 16 && |mac| == 32 && |aes| == 32 && |macKey| == 32
    ensures
      var bin := iv + body + mac;
      var r := DecryptAttachmentV1(c, bin, aes + macKey, digest);
      var macRight := mac == c.hmac(macKey, iv + body);
      var digestRight := digest.None? || forall i :: 0 <= i < |digest.value| ==>
                                           digest.value[i] == if i < 32 then c.sha256(bin)[i] else 0;
      && (r == Err(BadMac) <==> !macRight)
      && (r == Err(BadDigest) <==> macRight && !digestRight)
      && (r == Err(CannotDecrypt) <==> macRight && digestRight && c.cbcDecrypt(aes, body, iv).None?)
      && (r.Ok? <==> macRight && digestRight && c.cbcDecrypt(aes, body, iv).Some?)
      && (r.Ok? ==> Some(r.value) == c.cbcDecrypt(aes, body, iv))
  {
    var bin, keys := iv + body + mac, aes + macKey;
    var n := |bin| - 32;
    assert bin[..n] == iv + body && bin[n..] == mac && bin[..16] == iv && bin[16..n] == body;
    assert keys[..32] == aes && keys[32..64] == macKey;
    var ours := c.hmac(macKey, iv + body);
    assert ours[..32] == ours;
  }

  /** A padded attachment comes back with its zeroes. */
  lemma PaddedRoundTrip(c: Primitives, plaintext: Bytes, keys: Bytes, iv: Bytes, paddedSize: int)
    requires c.Lawful() && |keys| == 64 && |iv| == 16
    ensures
      var e := PadAndEncryptAttachment(c, plaintext, keys, iv, paddedSize);
      && (e.Ok? <==> paddedSize >= |plaintext|)
      && (e.Ok? ==>
            DecryptAttachmentV1(c, e.value.ciphertext, keys, Some(e.value.digest))
            == Ok(plaintext + Zeroes(paddedSize - |plaintext|)))
  {
    if paddedSize >= |plaintext| {
      AttachmentRoundTrip(c, plaintext + Zeroes(paddedSize - |plaintext|), keys, iv, true);
    }
  }

  // ---------------------------------------------------------------- profiles

  /** `encryptProfile`. */
  function EncryptProfile(c: Primitives, data: Bytes, key: Bytes, iv: Bytes): Result<Bytes> {
    if |key| != 32 || |iv| != 12 then Err(BadKeyLength) else Ok(iv + c.gcmEncrypt(key, iv, data))
  }

  /** `decryptProfile`: an envelope for no data at all counts as too short. */
  function DecryptProfile(c: Primitives, data: Bytes, key: Bytes): Result<Bytes> {
    if |data| < 12 + 16 + 1 then Err(BadLength)
    else if |key| != 32 then Err(BadKeyLength)
    else
      match c.gcmDecrypt(key, data[..12], data[12..])
      case Some(p) => Ok(p)
      case None => Err(CannotDecrypt)
  }

  lemma ProfileRoundTripIff(c: Primitives, data: Bytes, key: Bytes, iv: Bytes)
    requires c.Lawful() && |key| == 32 && |iv| == 12
    ensures
      var e := EncryptProfile(c, data, key, iv);
      e.Ok? && (DecryptProfile(c, e.value, key) == Ok(data) <==> data != [])
  {}

  /** Which profile data are refused, and why. */
  lemma ProfileRefused(c: Primitives, iv: Bytes, sealed: Bytes, key: Bytes)
    requires |iv| == 12
    ensures
      var r := DecryptProfile(c, iv + sealed, key);
      && (r == Err(BadLength) <==> |sealed| < 17)
      && (r == Err(BadKeyLength) <==> |sealed| >= 17 && |key| != 32)
      && (r == Err(CannotDecrypt) <==> |sealed| >= 17 && |key| == 32 && c.gcmDecrypt(key, iv, sealed).None?)
      && (r.Ok? ==> Some(r.value) == c.gcmDecrypt(key, iv, sealed))
    ensures forall data :: EncryptProfile(c, data, key, iv).Ok? <==> |key| == 32
  {
    assert (iv + sealed)[..12] == iv && (iv + sealed)[12..] == sealed;
  }

  /** The first padded length an item fits into. */
  function FirstFit(lengths: seq<nat>, size: nat): (r: Option<nat>)
    ensures r.Some? ==> size <= r.value
  {
    if lengths == [] then None
    else if size <= lengths[0] then Some(lengths[0])
    else FirstFit(lengths[1..], size)
  }

  lemma {:induction false} FirstFitIsFirst(lengths: seq<nat>, size: nat) returns (i: nat)
    ensures i <= |lengths| && forall j :: 0 <= j < i ==> lengths[j] < size
    ensures FirstFit(lengths, size) == if i < |lengths| then Some(lengths[i]) else None
  {
    if lengths == [] || size <= lengths[0] {
      i := 0;
    } else {
      i := FirstFitIsFirst(lengths[1..], size);
      i := i + 1;
    }
  }

  function Padded(item: Bytes, n: nat): (r: Bytes)
    requires |item| <= n
    ensures |r| == n
  {
    item + Zeroes(n - |item|)
  }

  /** `encryptProfileItemWithPadding`: the item is written into a buffer of zeroes. */
  method EncryptProfileItemWithPadding(c: Primitives, item: Bytes, key: Bytes, lengths: seq<nat>, iv: Bytes)
    returns (r: Result<Bytes>)
    ensures r == EncryptItem(c, item, key, lengths, iv)
  {
    var paddedLength := FirstFit(lengths, |item|);
    if paddedLength.None? || paddedLength.value == 0 { return Err(Oversized); }
    var padded := new bv8[paddedLength.value](i => 0);
    for i := 0 to |item|
      invariant padded[..] == item[..i] + Zeroes(padded.Length - i)
    {
      padded[i] := item[i];
      assert padded[..] == item[..i] + [item[i]] + Zeroes(padded.Length - i - 1);
      assert item[..i + 1] == item[..i] + [item[i]];
    }
    assert item[..|item|] == item;
    r := EncryptProfile(c, padded[..], key, iv);
  }

  function EncryptItem(c: Primitives, item: Bytes, key: Bytes, lengths: seq<nat>, iv: Bytes): Result<Bytes> {
    var n := FirstFit(lengths, |item|);
    if n.None? || n.value == 0 then Err(Oversized) else EncryptProfile(c, Padded(item, n.value), key, iv)
  }

  predicate ZeroFree(s: Bytes) { forall i :: 0 <= i < |s| ==> s[i] != 0 }

  /** The part before the first zero byte. */
  function BeforeZero(s: Bytes): (r: Bytes)
    ensures r <= s && ZeroFree(r) && (|r| < |s| ==> s[|r|] == 0)
  {
    if s == [] || s[0] == 0 then [] else [s[0]] + BeforeZero(s[1..])
  }

  lemma {:induction false} BeforeZeroIs(s: Bytes, n: nat)
    requires n <= |s| && ZeroFree(s[..n]) && (n < |s| ==> s[n] == 0)
    ensures BeforeZero(s) == s[..n]
  {}

  /** The loops that look for the next zero byte. */
  method ZeroFrom(padded: Bytes, start: nat) returns (end: nat)
    ensures start >= |padded| ==> end == start
    ensures start < |padded| ==> start <= end <= |padded| && padded[start..end] == BeforeZero(padded[start..])
  {
    end := start;
    while end < |padded|
      invariant start <= |padded| ==> start <= end <= |padded| && ZeroFree(padded[start..end])
      invariant start > |padded| ==> end == start
    {
      if padded[end] == 0 { break; }
      assert padded[start..end + 1] == padded[start..end] + [padded[end]];
      end := end + 1;
    }
    if start < |padded| {
      assert padded[start..][..end - start] == padded[start..end];
      BeforeZeroIs(padded[start..], end - start);
    }
  }

  /** `trimForDisplay`. */
  method TrimForDisplay(padded: Bytes) returns (r: Bytes)
    ensures r == BeforeZero(padded)
  {
    var paddingEnd := ZeroFrom(padded, 0);
    assert padded[0..] == padded;
    r := padded[..paddingEnd];
  }

  lemma TrimPadded(item: Bytes, n: nat)
    requires |item| <= n
    ensures BeforeZero(Padded(item, n)) == BeforeZero(item)
  {
    var r := BeforeZero(item);
    var p := Padded(item, n);
    assert p[..|r|] == r;
    BeforeZeroIs(p, |r|);
  }

  /** A padded item that was encrypted, decrypted and trimmed is itself again, exactly if it has no zero byte. */
  lemma ItemRoundTripIff(c: Primitives, item: Bytes, key: Bytes, lengths: seq<nat>, iv: Bytes)
    requires c.Lawful() && |key| == 32 && |iv| == 12 && exists n <- lengths :: n >= |item|
    requires 0 !in lengths
    ensures
      var e := EncryptItem(c, item, key, lengths, iv);
      && e.Ok? && DecryptProfile(c, e.value, key).Ok?
      && (BeforeZero(DecryptProfile(c, e.value, key).value) == item <==> ZeroFree(item))
  {
    var i := FirstFitIsFirst(lengths, |item|);
    var n := FirstFit(lengths, |item|).value;
    ProfileRoundTripIff(c, Padded(item, n), key, iv);
    TrimPadded(item, n);
    if ZeroFree(item) { assert item[..|item|] == item; BeforeZeroIs(item, |item|); }
  }

  // ---------------------------------------------------------------- profile names

  datatype Name = Name(given: Bytes, family: Option<Bytes>)

  /** How a name is put together for encryption: the parts that are not empty, joined by a zero byte. */
  function FullName(given: Bytes, family: Bytes): Bytes {
    if given == [] then family else if family == [] then given else given + [0] + family
  }

  /** What `decryptProfileName` reads out of the padded bytes. */
  function SplitName(padded: Bytes): Name {
    var given := BeforeZero(padded);
    var rest := if |given| < |padded| then BeforeZero(padded[|given| + 1..]) else [];
    Name(given, if rest == [] then None else Some(rest))
  }

  lemma SplitAtZeroes(padded: Bytes, givenEnd: nat, familyEnd: nat)
    requires givenEnd <= |padded| && padded[..givenEnd] == BeforeZero(padded)
    requires
      if givenEnd + 1 >= |padded| then familyEnd == givenEnd + 1
      else
        && givenEnd + 1 <= familyEnd <= |padded|
        && padded[givenEnd + 1..familyEnd] == BeforeZero(padded[givenEnd + 1..])
    ensures
      SplitName(padded)
      == Name(padded[..givenEnd], if familyEnd > givenEnd + 1 then Some(padded[givenEnd + 1..familyEnd]) else None)
  {
    var given := BeforeZero(padded);
    var rest := if |given| < |padded| then BeforeZero(padded[|given| + 1..]) else [];
    assert SplitName(padded) == Name(given, if rest == [] then None else Some(rest));
    assert |given| == givenEnd;
    if givenEnd + 1 >= |padded| {
      if givenEnd < |padded| { assert padded[|given| + 1..] == []; }
      assert rest == [];
    } else {
      assert rest == padded[givenEnd + 1..familyEnd] && |rest| == familyEnd - givenEnd - 1;
    }
  }

  /** `decryptProfileName` after base64, with its two loops. */
  method DecryptProfileName(c: Primitives, data: Bytes, key: Bytes) returns (r: Result<Name>)
    ensures
      var p := DecryptProfile(c, data, key);
      r == if p.Ok? then Ok(SplitName(p.value)) else Err(p.failure)
  {
    var decrypted := DecryptProfile(c, data, key);
    if decrypted.Err? { return Err(decrypted.failure); }
    var padded := decrypted.value;
    var givenEnd := ZeroFrom(padded, 0);
    assert padded[0..] == padded && padded[0..givenEnd] == padded[..givenEnd];
    var familyEnd := ZeroFrom(padded, givenEnd + 1);
    SplitAtZeroes(padded, givenEnd, familyEnd);
    var foundFamilyName := familyEnd > givenEnd + 1;
    r := Ok(Name(padded[..givenEnd], if foundFamilyName then Some(padded[givenEnd + 1..familyEnd]) else None));
  }

  /** Zero-free names come back, unless a family name stands without a given name: then it becomes the given name. */
  lemma NameRoundTripIff(c: Primitives, given: Bytes, family: Bytes, key: Bytes, lengths: seq<nat>, iv: Bytes)
    requires c.Lawful() && |key| == 32 && |iv| == 12 && ZeroFree(given) && ZeroFree(family)
    requires 0 !in lengths && exists n <- lengths :: n >= |FullName(given, family)|
    ensures
      var e := EncryptItem(c, FullName(given, family), key, lengths, iv);
      && e.Ok? && DecryptProfile(c, e.value, key).Ok?
      && (SplitName(DecryptProfile(c, e.value, key).value) == Name(given, if family == [] then None else Some(family))
          <==> given != [] || family == [])
  {
    var name := FullName(given, family);
    var i := FirstFitIsFirst(lengths, |name|);
    var n := FirstFit(lengths, |name|).value;
    ProfileRoundTripIff(c, Padded(name, n), key, iv);
    SplitPaddedName(given, family, n);
  }

  lemma SplitPaddedName(given: Bytes, family: Bytes, n: nat)
    requires ZeroFree(given) && ZeroFree(family) && |FullName(given, family)| <= n
    ensures
      SplitName(Padded(FullName(given, family), n))
      == if given == [] then Name(family, None) else Name(given, if family == [] then None else Some(family))
  {
    if given == [] {
      SplitOne(family, n);
    } else if family == [] {
      SplitOne(given, n);
    } else {
      SplitTwo(given, family, n);
    }
  }

  lemma SplitOne(part: Bytes, n: nat)
    requires ZeroFree(part) && |part| <= n
    ensures SplitName(Padded(part, n)) == Name(part, None)
  {
    var p := Padded(part, n);
    PaddedStarts(part, p);
    if |part| < n { PaddedStarts([], p[|part| + 1..]); }
  }

  lemma SplitTwo(given: Bytes, family: Bytes, n: nat)
    requires ZeroFree(given) && ZeroFree(family) && family != [] && |given| + 1 + |family| <= n
    ensures SplitName(Padded(given + [0] + family, n)) == Name(given, Some(family))
  {
    var p := Padded(given + [0] + family, n);
    PaddedStarts(given, p);
    assert p[|given| + 1..] == Padded(family, n - |given| - 1);
    PaddedStarts(family, Padded(family, n - |given| - 1));
  }

  lemma PaddedStarts(part: Bytes, p: Bytes)
    requires part <= p && ZeroFree(part) && (|part| < |p| ==> p[|part|] == 0)
    ensures BeforeZero(p) == part
  {
    BeforeZeroIs(p, |part|);
  }

  /** The laws can be met. */
  lemma LawsAreConsistent() returns (c: Primitives)
    ensures c.Lawful()
  {
    c := Primitives(
      (k, d) => Zeroes(32), d => Zeroes(32), (k, p, iv) => p, (k, p, iv) => Some(p),
      (k, iv, p) => p + Zeroes(16), (k, iv, p) => if |p| >= 16 then Some(p[..|p| - 16]) else None);
  }
}

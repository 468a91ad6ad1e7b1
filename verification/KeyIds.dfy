/** Keys of the prekey and triple caches: how ids are put together, and when a prefix names exactly one owner. */
module KeyIds {
  import opened ContactBook

  type Byte = x | 0 <= x < 256

  // ---------------------------------------------------------------- numbers and bytes as text

  function Digit(d: nat): char
    requires d < 16
  {
    "0123456789abcdef"[d]
  }

  lemma DigitInjective(d: nat, e: nat)
    requires d < 16 && e < 16 && Digit(d) == Digit(e)
    ensures d == e
  {}

  function Decimal(n: nat): (s: string)
    ensures s != "" && ':' !in s && (|s| == 1 <==> n < 10)
  {
    if n < 10 then [Digit(n)] else Decimal(n / 10) + [Digit(n % 10)]
  }

  lemma {:induction false} DecimalInjective(m: nat, n: nat)
    requires Decimal(m) == Decimal(n)
    ensures m == n
    decreases m
  {
    var s, t := Decimal(m), Decimal(n);
    if m >= 10 && n >= 10 {
      assert s[..|s| - 1] == Decimal(m / 10) && t[..|t| - 1] == Decimal(n / 10);
      DecimalInjective(m / 10, n / 10);
      DigitInjective(m % 10, n % 10);
    } else {
      assert m < 10 && n < 10;
      DigitInjective(m, n);
    }
  }

  function Hex(bytes: seq<Byte>): (s: string)
    ensures |s| == 2 * |bytes| && ':' !in s
  {
    if bytes == [] then "" else [Digit(bytes[0] / 16), Digit(bytes[0] % 16)] + Hex(bytes[1..])
  }

  lemma {:induction false} HexInjective(a: seq<Byte>, b: seq<Byte>)
    requires Hex(a) == Hex(b)
    ensures a == b
  {
    if a != [] && b != [] {
      var s, t := Hex(a), Hex(b);
      assert s[0] == t[0] && s[1] == t[1];
      DigitInjective(a[0] / 16, b[0] / 16);
      DigitInjective(a[0] % 16, b[0] % 16);
      assert s[2..] == Hex(a[1..]) && t[2..] == Hex(b[1..]);
      HexInjective(a[1..], b[1..]);
      assert a == [a[0]] + a[1..] && b == [b[0]] + b[1..];
    }
  }

  // ---------------------------------------------------------------- ids

  /** A record of one use of a last-resort kyber prekey. */
  datatype Triple = Triple(id: string, signedPreKeyId: nat, baseKey: seq<Byte>)

  /** `#_getKeyId`. */
  function KeyId(serviceId: string, keyId: nat): string { serviceId + ":" + Decimal(keyId) }

  /** `getKyberTripleCacheKey`. */
  function TripleKey(t: Triple): string { t.id + ":" + Decimal(t.signedPreKeyId) + ":" + Hex(t.baseKey) }

  /** An ACI is a UUID, a PNI a UUID behind "PNI:". */
  predicate WellFormed(serviceId: string) {
    IsUuid(serviceId) || (IsPniString(serviceId) && IsUuid(serviceId[4..]))
  }

  predicate IsKeyId(id: string, serviceId: string, keyId: nat) {
    WellFormed(serviceId) && id == KeyId(serviceId, keyId)
  }

  // ---------------------------------------------------------------- colons

  /** Text up to the first colon. */
  lemma {:induction false} FirstColon(a: string, x: string, b: string, y: string)
    requires ':' !in a && ':' !in b && a + ":" + x <= b + ":" + y
    ensures a == b && x <= y
  {
    var p, q := a + ":" + x, b + ":" + y;
    assert p[|a|] == ':' && q[|b|] == ':';
    assert forall k :: 0 <= k < |a| ==> p[k] == a[k] && p[k] != ':';
    assert forall k :: 0 <= k < |b| ==> q[k] == b[k] && q[k] != ':';
    assert |a| == |b|;
    assert a == p[..|a|] && b == q[..|a|];
    assert x == p[|a| + 1..] && y == q[|a| + 1..];
  }

  /** Text after the last colon. */
  lemma {:induction false} LastColon(x: string, a: string, y: string, b: string)
    requires ':' !in a && ':' !in b && x + ":" + a == y + ":" + b
    ensures x == y && a == b
  {
    var p, q := x + ":" + a, y + ":" + b;
    assert p[|x|] == ':' && q[|y|] == ':';
    assert forall k :: |x| < k < |p| ==> p[k] == a[k - |x| - 1] && p[k] != ':';
    assert forall k :: |y| < k < |q| ==> q[k] == b[k - |y| - 1] && q[k] != ':';
    assert |x| == |y|;
    assert x == p[..|x|] && y == q[..|x|];
    assert a == p[|x| + 1..] && b == q[|x| + 1..];
  }

  lemma UuidHasNoColon(s: string)
    requires IsUuid(s)
    ensures ':' !in s
  {}

  // ---------------------------------------------------------------- different things have different keys

  lemma KeyIdInjective(s: string, m: nat, t: string, n: nat)
    requires KeyId(s, m) == KeyId(t, n)
    ensures s == t && m == n
  {
    LastColon(s, Decimal(m), t, Decimal(n));
    DecimalInjective(m, n);
  }

  /** Even with colons inside the ids, two triples never share a cache key. */
  lemma TripleKeyInjective(t: Triple, u: Triple)
    requires TripleKey(t) == TripleKey(u)
    ensures t == u
  {
    var p, q := t.id + ":" + Decimal(t.signedPreKeyId), u.id + ":" + Decimal(u.signedPreKeyId);
    LastColon(p, Hex(t.baseKey), q, Hex(u.baseKey));
    LastColon(t.id, Decimal(t.signedPreKeyId), u.id, Decimal(u.signedPreKeyId));
    DecimalInjective(t.signedPreKeyId, u.signedPreKeyId);
    HexInjective(t.baseKey, u.baseKey);
  }

  // ---------------------------------------------------------------- deleting by prefix

  lemma UuidOrPni(s: string)
    requires WellFormed(s)
    ensures s != "" && (IsUuid(s) <==> s[0] != 'P')
  {}

  /** A key starts with a service id and a colon only if it is that service id's. */
  lemma OwnerByPrefix(s: string, x: string, t: string, y: string)
    requires WellFormed(s) && WellFormed(t) && s + ":" + x <= t + ":" + y
    ensures s == t && x <= y
  {
    var p, q := s + ":" + x, t + ":" + y;
    assert p[0] == s[0] && q[0] == t[0] && p[0] == q[0];
    UuidOrPni(s);
    UuidOrPni(t);
    assert IsUuid(s) == IsUuid(t);
    if IsUuid(s) {
      UuidHasNoColon(s);
      UuidHasNoColon(t);
      FirstColon(s, x, t, y);
    } else {
      UuidHasNoColon(s[4..]);
      UuidHasNoColon(t[4..]);
      assert p[4..] == s[4..] + ":" + x && q[4..] == t[4..] + ":" + y;
      FirstColon(s[4..], x, t[4..], y);
      assert s == "PNI:" + s[4..] && t == "PNI:" + t[4..];
    }
  }

  /** Deleting what starts with the id of a prekey removes exactly the triples of that prekey. */
  lemma TriplePrefixExact(id: string, s: string, m: nat, t: Triple, u: string, n: nat)
    requires IsKeyId(id, s, m) && IsKeyId(t.id, u, n)
    ensures id + ":" <= TripleKey(t) <==> t.id == id
  {
    var tail := Decimal(t.signedPreKeyId) + ":" + Hex(t.baseKey);
    assert TripleKey(t) == t.id + ":" + tail;
    if id + ":" <= TripleKey(t) {
      assert id + ":" == s + ":" + (Decimal(m) + ":") && TripleKey(t) == u + ":" + (Decimal(n) + ":" + tail);
      OwnerByPrefix(s, Decimal(m) + ":", u, Decimal(n) + ":" + tail);
      assert Decimal(m) + ":" + "" == Decimal(m) + ":";
      FirstColon(Decimal(m), "", Decimal(n), tail);
    }
  }

  /** Deleting what starts with a PNI removes exactly the prekeys of that PNI. */
  lemma PniPrefixExact(oldPni: string, s: string, m: nat)
    requires WellFormed(oldPni) && WellFormed(s)
    ensures oldPni + ":" <= KeyId(s, m) <==> s == oldPni
  {
    if oldPni + ":" <= KeyId(s, m) {
      assert oldPni + ":" + "" == oldPni + ":";
      OwnerByPrefix(oldPni, "", s, Decimal(m));
    }
  }

  /** Malformed service ids would break this: a prefix can name somebody else's prekeys. */
  lemma PrefixNeedsWellFormed()
    ensures var oldPni, other := "PNI:1", "PNI:1:2"; oldPni + ":" <= KeyId(other, 3) && other != oldPni
  {}
}

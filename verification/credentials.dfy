/** The hash of a pair of credentials: internal/operator/minio_access_key_reconciler.go, getHash. */
module Credentials {
  /** Strings are byte strings, one character a byte. */
  datatype Creds = Creds(accessKey: string, secretKey: string)

  const TWO32 := 0x1_0000_0000

  function Low(n: nat): char {
    (n % 256) as char
  }

  /** Four bytes, the most significant first; longer numbers are cut off. */
  function Uint32(n: nat): (bytes: string)
    ensures |bytes| == 4
  {
    [Low(n / 256 / 256 / 256), Low(n / 256 / 256), Low(n / 256), Low(n)]
  }

  lemma LowIs(n: nat)
    ensures (Low(n) as nat) == n % 256 && n == n / 256 * 256 + n % 256
  {
  }

  lemma LowInjective(m: nat, n: nat)
    requires Low(m) == Low(n)
    ensures m % 256 == n % 256 && m == m / 256 * 256 + m % 256 && n == n / 256 * 256 + n % 256
  {
    assert (Low(m) as int) == m % 256 && (Low(n) as int) == n % 256;
  }

  lemma Uint32Injective(m: nat, n: nat)
    requires m < TWO32 && n < TWO32 && Uint32(m) == Uint32(n)
    ensures m == n
  {
    var a, b := Uint32(m), Uint32(n);
    assert a[0] == b[0] && a[1] == b[1] && a[2] == b[2] && a[3] == b[3];
    LowInjective(m / 256 / 256 / 256, n / 256 / 256 / 256);
    LowInjective(m / 256 / 256, n / 256 / 256);
    LowInjective(m / 256, n / 256);
    LowInjective(m, n);
  }

  /** What is hashed: both keys, each after its length. */
  function Encode(c: Creds): string {
    Uint32(|c.accessKey|) + c.accessKey + Uint32(|c.secretKey|) + c.secretKey
  }

  /** Writes the keys to a buffer, one after the other. */
  method WriteCredentials(c: Creds) returns (buf: string)
    ensures buf == Encode(c)
  {
    buf := "";
    buf := buf + Uint32(|c.accessKey|);
    buf := buf + c.accessKey;
    buf := buf + Uint32(|c.secretKey|);
    buf := buf + c.secretKey;
  }

  /** The number four bytes stand for, the most significant first. */
  function Number(bytes: string): nat
    requires |bytes| == 4
  {
    ((bytes[0] as nat * 256 + bytes[1] as nat) * 256 + bytes[2] as nat) * 256 + bytes[3] as nat
  }

  lemma Uint32Is(n: nat)
    ensures Number(Uint32(n)) == n % TWO32
  {
    LowIs(n / 256 / 256 / 256);
    LowIs(n / 256 / 256);
    LowIs(n / 256);
    LowIs(n);
  }

  /** The access key comes first, each key after its length, which is cut off at four bytes. */
  lemma EncodeLayout(c: Creds)
    ensures
      var b, m, n := Encode(c), |c.accessKey|, |c.secretKey|;
      && |b| == 8 + m + n && Number(b[..4]) == m % TWO32 && b[4..4 + m] == c.accessKey
      && Number(b[4 + m..8 + m]) == n % TWO32 && b[8 + m..] == c.secretKey
  {
    hide Uint32, Number;
    var b, m, n := Encode(c), |c.accessKey|, |c.secretKey|;
    Uint32Is(m);
    Uint32Is(n);
    assert b[..4] == Uint32(m) && b[4 + m..8 + m] == Uint32(n);
  }

  /** Different credentials never share an encoding. */
  lemma EncodeInjective(c: Creds, d: Creds)
    requires |c.accessKey| < TWO32 && |c.secretKey| < TWO32 && |d.accessKey| < TWO32 && |d.secretKey| < TWO32
    requires Encode(c) == Encode(d)
    ensures c == d
  {
    hide Uint32;
    var m, n := |c.accessKey|, |d.accessKey|;
    assert Encode(c)[..4] == Uint32(m) && Encode(d)[..4] == Uint32(n);
    Uint32Injective(m, n);
    assert Encode(c)[4..4 + m] == c.accessKey && Encode(d)[4..4 + n] == d.accessKey;
    assert Encode(c)[8 + m..] == c.secretKey && Encode(d)[8 + n..] == d.secretKey;
  }

  /** The digest tells these two encodings apart if they differ. */
  ghost predicate NoCollision(digest: string -> string, c: Creds, d: Creds) {
    digest(Encode(c)) == digest(Encode(d)) ==> Encode(c) == Encode(d)
  }

  /** Without a collision the generated secret is rewritten exactly when a credential changed. */
  lemma HashTellsChange(digest: string -> string, c: Creds, d: Creds)
    requires |c.accessKey| < TWO32 && |c.secretKey| < TWO32 && |d.accessKey| < TWO32 && |d.secretKey| < TWO32
    requires NoCollision(digest, c, d)
    ensures digest(Encode(c)) == digest(Encode(d)) <==> c == d
  {
    hide Encode;
    if Encode(c) == Encode(d) { EncodeInjective(c, d); }
  }
}

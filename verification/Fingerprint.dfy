/**
  Content fingerprints (src/cache.rs). A fingerprint is the SHA-256 digest of its
  parts, each preceded by its length as eight big-endian bytes.  The framing, not the
  hash, is what keeps ["ab", "c"] apart from ["a", "bc"].
 */
module Fingerprint {
  const BYTE_RANGE: nat := 256
  const U64_RANGE: nat := 0x1_0000_0000_0000_0000

  type Byte = b: nat | b < BYTE_RANGE

  /** The UTF-8 bytes of a `&str`; its length fits the 64-bit prefix. */
  type Text = s: seq<Byte> | |s| < U64_RANGE

  /** A collision-free hash: a free constructor, equal only on equal messages. */
  datatype Digest = Sha256(message: seq<Byte>)

  function Power(base: nat, exponent: nat): nat {
    if exponent == 0 then 1 else base * Power(base, exponent - 1)
  }

  function BigEndian(n: nat, width: nat): (bytes: seq<Byte>)
    ensures |bytes| == width
  {
    if width == 0 then [] else BigEndian(n / BYTE_RANGE, width - 1) + [n % BYTE_RANGE]
  }

  function Frame(parts: seq<Text>): seq<Byte> {
    if parts == [] then [] else BigEndian(|parts[0]|, 8) + parts[0] + Frame(parts[1..])
  }

  function Of(parts: seq<Text>): Digest {
    Sha256(Frame(parts))
  }

  function Ascii(s: string): (t: Text)
    requires |s| < U64_RANGE
  {
    seq(|s|, i requires 0 <= i < |s| => (s[i] as int) % BYTE_RANGE)
  }

  /** The streaming digest: one update for the length and one for the content of each part. */
  method Compute(parts: seq<Text>) returns (digest: Digest)
    ensures digest == Of(parts)
  {
    var message: seq<Byte> := [];
    for i := 0 to |parts|
      invariant message == Frame(parts[..i])
    {
      message := message + BigEndian(|parts[i]|, 8);
      message := message + parts[i];
      assert parts[..i + 1] == parts[..i] + [parts[i]];
      FrameAppend(parts[..i], parts[i]);
    }
    assert parts[..|parts|] == parts;
    digest := Sha256(message);
  }

  lemma {:induction false} FrameAppend(parts: seq<Text>, last: Text)
    ensures Frame(parts + [last]) == Frame(parts) + BigEndian(|last|, 8) + last
  {
    if parts == [] {
      assert ([] + [last])[1..] == [];
    } else {
      assert (parts + [last])[1..] == parts[1..] + [last];
      FrameAppend(parts[1..], last);
    }
  }

  lemma {:induction false} BigEndianInjective(m: nat, n: nat, width: nat)
    requires m < Power(BYTE_RANGE, width) && n < Power(BYTE_RANGE, width)
    requires BigEndian(m, width) == BigEndian(n, width)
    ensures m == n
  {
    if width > 0 {
      var a, b := BigEndian(m, width), BigEndian(n, width);
      assert a[..width - 1] == BigEndian(m / BYTE_RANGE, width - 1);
      assert b[..width - 1] == BigEndian(n / BYTE_RANGE, width - 1);
      assert a[width - 1] == m % BYTE_RANGE && b[width - 1] == n % BYTE_RANGE;
      BigEndianInjective(m / BYTE_RANGE, n / BYTE_RANGE, width - 1);
    }
  }

  lemma EightBytesHoldU64()
    ensures Power(BYTE_RANGE, 8) == U64_RANGE
  {
  }

  lemma {:induction false} FrameInjective(a: seq<Text>, b: seq<Text>)
    requires Frame(a) == Frame(b)
    ensures a == b
  {
    if a == [] || b == [] {
      assert a == b;
    } else {
      var fa, fb := Frame(a), Frame(b);
      assert fa[..8] == BigEndian(|a[0]|, 8) && fb[..8] == BigEndian(|b[0]|, 8);
      EightBytesHoldU64();
      BigEndianInjective(|a[0]|, |b[0]|, 8);
      var end := 8 + |a[0]|;
      assert fa[8..end] == a[0] && fb[8..end] == b[0];
      assert fa[end..] == Frame(a[1..]) && fb[end..] == Frame(b[1..]);
      FrameInjective(a[1..], b[1..]);
      assert a == [a[0]] + a[1..] && b == [b[0]] + b[1..];
    }
  }

  /** Two lists of parts share a fingerprint exactly when they are the same list. */
  lemma Injective(a: seq<Text>, b: seq<Text>)
    ensures Of(a) == Of(b) <==> a == b
  {
    if Of(a) == Of(b) {
      FrameInjective(a, b);
    }
  }
}

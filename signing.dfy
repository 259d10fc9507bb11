/**
  The two authentication checks on inbound webhook requests: the per-user endpoint
  token of `/incoming/:provider/:token` and the shared-secret signature header of `/ghl`.

  HMAC-SHA256 (RFC 2104 with SHA-256) is not computed here: every check takes it as a
  parameter `mac`, an arbitrary function from (key, message) to a 32-byte digest, so the
  properties below hold whatever the hash is. `digest('hex')`, the decimal rendering of
  numbers in template strings and the UTF-8 byte length that `Buffer.from` produces are
  modelled exactly.
*/
module Signing {
  import opened Wrappers
  import opened Js

  newtype Byte = b: int | 0 <= b < 256

  /** A SHA-256 sized digest: 32 bytes. */
  type Digest = d: seq<Byte> | |d| == 32 witness seq(32, (i: int) => 0 as Byte)

  /** HMAC-SHA256 keyed by the first argument over the second, left uninterpreted. */
  type Mac = (string, string) -> Digest

  // ---------------------------------------------------------------------------
  // Lower-case hexadecimal, as produced by `digest('hex')`

  predicate IsHexDigit(c: char) {
    '0' <= c <= '9' || 'a' <= c <= 'f'
  }

  function HexDigit(n: int): (c: char)
    requires 0 <= n < 16
    ensures IsHexDigit(c)
  {
    if n < 10 then ('0' as int + n) as char else ('a' as int + n - 10) as char
  }

  function HexValue(c: char): (n: int)
    requires IsHexDigit(c)
    ensures 0 <= n < 16 && HexDigit(n) == c
  {
    if '0' <= c <= '9' then c as int - '0' as int else c as int - 'a' as int + 10
  }

  /** Two lower-case hex digits per byte, most significant nibble first. */
  function Hex(d: seq<Byte>): (s: string)
    ensures |s| == 2 * |d|
    ensures forall i :: 0 <= i < |s| ==> IsHexDigit(s[i])
  {
    if d == [] then [] else [HexDigit(d[0] as int / 16), HexDigit(d[0] as int % 16)] + Hex(d[1..])
  }

  /** The inverse of `Hex` on well-formed hex strings. */
  function UnHex(s: string): (d: seq<Byte>)
    requires |s| % 2 == 0
    requires forall i :: 0 <= i < |s| ==> IsHexDigit(s[i])
    ensures |d| == |s| / 2
  {
    if s == [] then [] else [(HexValue(s[0]) * 16 + HexValue(s[1])) as Byte] + UnHex(s[2..])
  }

  /** Hex encoding round-trips: the hex text of a digest determines the digest. */
  lemma {:induction false} UnHexHex(d: seq<Byte>)
    ensures UnHex(Hex(d)) == d
  {
    if d != [] {
      var s := Hex(d);
      var b := d[0] as int;
      assert HexValue(s[0]) == b / 16 by {
        assert s[0] == HexDigit(b / 16);
      }
      assert HexValue(s[1]) == b % 16 by {
        assert s[1] == HexDigit(b % 16);
      }
      assert s[2..] == Hex(d[1..]);
      UnHexHex(d[1..]);
      assert d == [d[0]] + d[1..];
    }
  }

  lemma HexInjective(d1: seq<Byte>, d2: seq<Byte>)
    requires Hex(d1) == Hex(d2)
    ensures d1 == d2
  {
    UnHexHex(d1);
    UnHexHex(d2);
  }

  // ---------------------------------------------------------------------------
  // UTF-8 byte length, as `Buffer.from(string)` measures a string

  function Utf8Width(c: char): (n: nat)
    ensures 1 <= n <= 4
  {
    if c as int < 0x80 then 1 else if c as int < 0x800 then 2 else if c as int < 0x10000 then 3 else 4
  }

  function Utf8Length(s: string): (n: nat)
  {
    if s == [] then 0 else Utf8Width(s[0]) + Utf8Length(s[1..])
  }

  /** A string of ASCII characters is as many bytes long as it is characters long. */
  lemma {:induction false} AsciiUtf8Length(s: string)
    requires forall i :: 0 <= i < |s| ==> s[i] as int < 0x80
    ensures Utf8Length(s) == |s|
  {
    if s != [] {
      AsciiUtf8Length(s[1..]);
    }
  }

  // ---------------------------------------------------------------------------
  // Decimal rendering of numbers inside template strings

  function DecimalDigit(n: int): (c: char)
    requires 0 <= n < 10
    ensures '0' <= c <= '9'
  {
    ('0' as int + n) as char
  }

  /** `${n}` for a non-negative whole number: at least one digit, no leading zeros beyond "0". */
  function NatToDecimal(n: nat): (s: string)
    ensures |s| >= 1
    ensures forall i :: 0 <= i < |s| ==> '0' <= s[i] <= '9'
  {
    if n < 10 then [DecimalDigit(n)] else NatToDecimal(n / 10) + [DecimalDigit(n % 10)]
  }

  /** Distinct numbers render as distinct digit strings. */
  lemma {:induction false} NatToDecimalInjective(a: nat, b: nat)
    requires NatToDecimal(a) == NatToDecimal(b)
    ensures a == b
  {
    var s := NatToDecimal(a);
    if a >= 10 && b >= 10 {
      assert s[|s| - 1] == DecimalDigit(a % 10) == DecimalDigit(b % 10);
      assert s[..|s| - 1] == NatToDecimal(a / 10) == NatToDecimal(b / 10);
      NatToDecimalInjective(a / 10, b / 10);
    }
  }

  /** `${n}` for any whole number. */
  function IntToDecimal(n: int): (s: string)
    ensures |s| >= 1
  {
    if n < 0 then "-" + NatToDecimal(-n) else NatToDecimal(n)
  }

  // ---------------------------------------------------------------------------
  // Per-user webhook tokens (`verifyWebhookToken`)

  /** The server-wide key the endpoint tokens are signed with. */
  const WebhookSigningKey: string := "webhook-secret-key"

  /** The signed message `${userId}:${provider}`. */
  function TokenMessage(userId: nat, provider: string): string {
    NatToDecimal(userId) + ":" + provider
  }

  /** No two (user, provider) pairs sign the same message. */
  lemma TokenMessageInjective(u1: nat, p1: string, u2: nat, p2: string)
    requires TokenMessage(u1, p1) == TokenMessage(u2, p2)
    ensures u1 == u2 && p1 == p2
  {
    var m := TokenMessage(u1, p1);
    var d1, d2 := NatToDecimal(u1), NatToDecimal(u2);
    // the first ':' of the message ends the digits of the user id
    assert forall k :: 0 <= k < |d1| ==> m[k] != ':';
    assert forall k :: 0 <= k < |d2| ==> m[k] != ':';
    assert m[|d1|] == ':' && m[|d2|] == ':';
    assert d1 == m[..|d1|] == d2;
    NatToDecimalInjective(u1, u2);
    assert p1 == m[|d1| + 1..] == p2;
  }

  /** The token a user's endpoint must present: hex(HMAC(key, "{userId}:{provider}")). */
  function ExpectedWebhookToken(mac: Mac, userId: nat, provider: string): (t: string)
    ensures |t| == 64 && Utf8Length(t) == 64
    ensures forall i :: 0 <= i < |t| ==> IsHexDigit(t[i])
  {
    var t := Hex(mac(WebhookSigningKey, TokenMessage(userId, provider)));
    AsciiUtf8Length(t);
    t
  }

  /**
    The outcome of `crypto.timingSafeEqual(Buffer.from(expected), Buffer.from(token))`:
    equal, different, or a RangeError because the two buffers differ in length.
  */
  datatype TokenCheck = TokenAccepted | TokenRejected | TokenLengthMismatch

  function VerifyWebhookToken(mac: Mac, token: string, userId: nat, provider: string): (r: TokenCheck)
    ensures r == TokenAccepted <==> token == ExpectedWebhookToken(mac, userId, provider)
    ensures r == TokenLengthMismatch <==> Utf8Length(token) != 64
    ensures r == TokenRejected <==> Utf8Length(token) == 64 && token != ExpectedWebhookToken(mac, userId, provider)
  {
    var expected := ExpectedWebhookToken(mac, userId, provider);
    // UTF-8 is injective, so equal byte buffers are equal strings
    if Utf8Length(expected) != Utf8Length(token) then TokenLengthMismatch
    else if expected == token then TokenAccepted
    else TokenRejected
  }

  /**
    A token accepted for two (user, provider) pairs is either issued for one pair, or the
    two distinct signed messages collide under the MAC: accepting a token for a foreign
    pair takes an HMAC collision.
  */
  lemma TokenBindsUserAndProvider(mac: Mac, token: string, u1: nat, p1: string, u2: nat, p2: string)
    requires VerifyWebhookToken(mac, token, u1, p1) == TokenAccepted
    requires VerifyWebhookToken(mac, token, u2, p2) == TokenAccepted
    ensures || (u1 == u2 && p1 == p2)
            || (&& TokenMessage(u1, p1) != TokenMessage(u2, p2)
                && mac(WebhookSigningKey, TokenMessage(u1, p1)) == mac(WebhookSigningKey, TokenMessage(u2, p2)))
  {
    HexInjective(mac(WebhookSigningKey, TokenMessage(u1, p1)), mac(WebhookSigningKey, TokenMessage(u2, p2)));
    if TokenMessage(u1, p1) == TokenMessage(u2, p2) {
      TokenMessageInjective(u1, p1, u2, p2);
    }
  }

  // ---------------------------------------------------------------------------
  // Shared-secret signature of `/ghl` (`verifyGHLWebhook`)

  datatype SignatureCheck = NoSecretConfigured | SignatureMatched | SignatureMissing | SignatureMismatch {
    /** Whether the request goes on to the handler. */
    predicate Admits() {
      NoSecretConfigured? || SignatureMatched?
    }
  }

  /**
    `secret` is the configured webhook secret, `header` the `x-ghl-signature` header and
    `body` the serialised request body. The comparison is a plain string comparison.
  */
  function VerifyGhlSignature(mac: Mac, secret: Option<string>, header: Option<string>, body: string): (r: SignatureCheck)
    ensures r.Admits() <==> !Truthy(secret) || header == Some(Hex(mac(secret.value, body)))
    ensures r == SignatureMissing <==> Truthy(secret) && !Truthy(header)
    ensures r == SignatureMismatch <==> Truthy(secret) && Truthy(header) && header.value != Hex(mac(secret.value, body))
  {
    if !Truthy(secret) then NoSecretConfigured
    else if !Truthy(header) then SignatureMissing
    else if Hex(mac(secret.value, body)) != header.value then SignatureMismatch
    else SignatureMatched
  }
}

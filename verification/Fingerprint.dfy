/** The bytes a configuration fingerprint authenticates, and the text form of its tag
    (config_fingerprint.rs). The keyed hash itself is not modeled. */
module Fingerprint {
  import opened Records

  type byte = x: int | 0 <= x < 256

  const U64_LIMIT := 0x1_0000_0000_0000_0000
  const U16_LIMIT := 0x1_0000

  /** "OpenCodeServer.ConfigFingerprint.v1" and a zero byte. */
  const DOMAIN: seq<byte> := [79, 112, 101, 110, 67, 111, 100, 101, 83, 101, 114, 118, 101, 114, 46, 67, 111, 110, 102, 105, 103,
                              70, 105, 110, 103, 101, 114, 112, 114, 105, 110, 116, 46, 118, 49, 0]

  /** What the fingerprint covers; each text field by its bytes. */
  datatype Input = Input(
    schema: nat,
    hostname: seq<byte>,
    port: nat,
    username: seq<byte>,
    password: seq<byte>,
    mdns: bool,
    executable: seq<byte>)

  /** Integers and lengths fit their machine width. */
  predicate Fits(c: Input) {
    && c.schema < U64_LIMIT && c.port < U16_LIMIT
    && |c.hostname| < U64_LIMIT && |c.username| < U64_LIMIT && |c.password| < U64_LIMIT && |c.executable| < U64_LIMIT
  }

  /** The last `width` bytes of a number, most significant first. */
  function BigEndian(value: nat, width: nat): (b: seq<byte>)
    ensures |b| == width
  {
    if width == 0 then [] else BigEndian(value / 256, width - 1) + [value % 256]
  }

  function FromBigEndian(b: seq<byte>): nat {
    if b == [] then 0 else 256 * FromBigEndian(b[..|b| - 1]) + b[|b| - 1]
  }

  function Limit(width: nat): (n: nat)
    ensures n >= 1
  {
    if width == 0 then 1 else 256 * Limit(width - 1)
  }

  /** `update_bytes`: a field is its length, then its bytes. */
  function Field(value: seq<byte>): seq<byte> {
    BigEndian(|value|, 8) + value
  }

  /** The input of `update_canonical_config`. */
  function Canonical(c: Input): seq<byte> {
    DOMAIN + (BigEndian(c.schema, 8) + (Field(c.hostname) + (BigEndian(c.port, 2) + (Field(c.username) +
      (Field(c.password) + ([if c.mdns then 1 else 0] + Field(c.executable)))))))
  }

  // ---------------------------------------------------------------- the encoding is injective

  lemma {:induction false} BigEndianRoundTrip(value: nat, width: nat)
    requires value < Limit(width)
    ensures FromBigEndian(BigEndian(value, width)) == value
  {
    if width == 0 {
    } else {
      BigEndianRoundTrip(value / 256, width - 1);
      assert BigEndian(value, width)[..width - 1] == BigEndian(value / 256, width - 1);
    }
  }

  lemma Widths()
    ensures Limit(8) == U64_LIMIT && Limit(2) == U16_LIMIT
  {
    assert Limit(2) == 256 * Limit(1) && Limit(1) == 256 * Limit(0);
    assert Limit(4) == 256 * Limit(3) && Limit(3) == 256 * Limit(2);
    assert Limit(6) == 256 * Limit(5) && Limit(5) == 256 * Limit(4);
    assert Limit(8) == 256 * Limit(7) && Limit(7) == 256 * Limit(6);
  }

  /** Two texts that begin with numbers of one width. */
  lemma NumberSplits(a: nat, x: seq<byte>, b: nat, y: seq<byte>, width: nat)
    requires a < Limit(width) && b < Limit(width) && BigEndian(a, width) + x == BigEndian(b, width) + y
    ensures a == b && x == y
  {
    assert (BigEndian(a, width) + x)[..width] == BigEndian(a, width);
    assert (BigEndian(b, width) + y)[..width] == BigEndian(b, width);
    assert (BigEndian(a, width) + x)[width..] == x;
    assert (BigEndian(b, width) + y)[width..] == y;
    BigEndianRoundTrip(a, width);
    BigEndianRoundTrip(b, width);
  }

  /** Two texts that begin with length-prefixed fields: neither field can run into what
      follows it. */
  lemma FieldSplits(a: seq<byte>, x: seq<byte>, b: seq<byte>, y: seq<byte>)
    requires |a| < U64_LIMIT && |b| < U64_LIMIT && Field(a) + x == Field(b) + y
    ensures a == b && x == y
  {
    Widths();
    assert Field(a) + x == BigEndian(|a|, 8) + (a + x);
    assert Field(b) + y == BigEndian(|b|, 8) + (b + y);
    NumberSplits(|a|, a + x, |b|, b + y, 8);
    assert (a + x)[..|a|] == a && (b + y)[..|a|] == b;
    assert (a + x)[|a|..] == x && (b + y)[|a|..] == y;
  }

  lemma PrefixSplits(p: seq<byte>, x: seq<byte>, q: seq<byte>, y: seq<byte>)
    requires p + x == q + y && |p| == |q|
    ensures p == q && x == y
  {
    assert (p + x)[..|p|] == p && (q + y)[..|p|] == q;
    assert (p + x)[|p|..] == x && (q + y)[|p|..] == y;
  }

  /** Two configurations are authenticated by the same bytes only if every covered field of
      them agrees: no byte of a password can pass for a byte of the user name. */
  lemma CanonicalInjective(c: Input, d: Input)
    requires Fits(c) && Fits(d) && Canonical(c) == Canonical(d)
    ensures c == d
  {
    Widths();
    var c5 := [if c.mdns then 1 else 0] + Field(c.executable);
    var d5 := [if d.mdns then 1 else 0] + Field(d.executable);
    var c4, d4 := Field(c.password) + c5, Field(d.password) + d5;
    var c3, d3 := Field(c.username) + c4, Field(d.username) + d4;
    var c2, d2 := BigEndian(c.port, 2) + c3, BigEndian(d.port, 2) + d3;
    var c1, d1 := Field(c.hostname) + c2, Field(d.hostname) + d2;
    PrefixSplits(DOMAIN, BigEndian(c.schema, 8) + c1, DOMAIN, BigEndian(d.schema, 8) + d1);
    NumberSplits(c.schema, c1, d.schema, d1, 8);
    FieldSplits(c.hostname, c2, d.hostname, d2);
    NumberSplits(c.port, c3, d.port, d3, 2);
    FieldSplits(c.username, c4, d.username, d4);
    FieldSplits(c.password, c5, d.password, d5);
    PrefixSplits([if c.mdns then 1 else 0], Field(c.executable), [if d.mdns then 1 else 0], Field(d.executable));
    assert Field(c.executable) + [] == Field(d.executable) + [];
    FieldSplits(c.executable, [], d.executable, []);
  }

  /** The hash as it is fed, piece by piece. */
  class MacInput {
    var fed: seq<byte>

    constructor ()
      ensures fed == []
    {
      fed := [];
    }

    method Update(bytes: seq<byte>)
      modifies this
      ensures fed == old(fed) + bytes
    {
      fed := fed + bytes;
    }

    method UpdateNumber(value: nat, width: nat)
      modifies this
      ensures fed == old(fed) + BigEndian(value, width)
    {
      Update(BigEndian(value, width));
    }

    method UpdateBytes(value: seq<byte>)
      modifies this
      ensures fed == old(fed) + Field(value)
    {
      UpdateNumber(|value|, 8);
      Update(value);
    }

    method UpdateCanonicalConfig(c: Input)
      requires fed == []
      modifies this
      ensures fed == Canonical(c)
    {
      hide Field;
      hide BigEndian;
      ghost var r6 := [if c.mdns then 1 else 0] + Field(c.executable);
      ghost var r5 := Field(c.password) + r6;
      ghost var r4 := Field(c.username) + r5;
      ghost var r3 := BigEndian(c.port, 2) + r4;
      ghost var r2 := Field(c.hostname) + r3;
      ghost var r1 := BigEndian(c.schema, 8) + r2;
      ghost var all := DOMAIN + r1;
      Fed([], DOMAIN, r1, all);
      Update(DOMAIN);
      Fed(fed, BigEndian(c.schema, 8), r2, all);
      UpdateNumber(c.schema, 8);
      Fed(fed, Field(c.hostname), r3, all);
      UpdateBytes(c.hostname);
      Fed(fed, BigEndian(c.port, 2), r4, all);
      UpdateNumber(c.port, 2);
      Fed(fed, Field(c.username), r5, all);
      UpdateBytes(c.username);
      Fed(fed, Field(c.password), r6, all);
      UpdateBytes(c.password);
      Fed(fed, [if c.mdns then 1 else 0], Field(c.executable), all);
      Update([if c.mdns then 1 else 0]);
      UpdateBytes(c.executable);
    }
  }

  /** What is fed so far, what is fed next, and the rest. */
  lemma Fed(fed: seq<byte>, next: seq<byte>, rest: seq<byte>, all: seq<byte>)
    requires fed + (next + rest) == all
    ensures (fed + next) + rest == all
  {
    assert (fed + next) + rest == fed + (next + rest);
  }

  // ---------------------------------------------------------------- the text form of a tag

  const HEX: string := "0123456789abcdef"

  /** `decode_nibble`: both cases are accepted. */
  function DecodeNibble(c: char): Option<nat> {
    if '0' <= c <= '9' then Some(c as int - '0' as int)
    else if 'a' <= c <= 'f' then Some(c as int - 'a' as int + 10)
    else if 'A' <= c <= 'F' then Some(c as int - 'A' as int + 10)
    else None
  }

  function Lower(c: char): char {
    if 'A' <= c <= 'F' then (c as int - 'A' as int + 'a' as int) as char else c
  }

  function LowerAll(s: string): string {
    if s == "" then "" else [Lower(s[0])] + LowerAll(s[1..])
  }

  function EncodeHex(b: seq<byte>): string {
    if b == [] then "" else [HEX[b[0] / 16], HEX[b[0] % 16]] + EncodeHex(b[1..])
  }

  /** `decode_hex` on text of the right length. */
  function DecodeHex(s: string): Option<seq<byte>> {
    if s == "" then Some([])
    else if |s| == 1 then None
    else
      var high, low := DecodeNibble(s[0]), DecodeNibble(s[1]);
      if high.None? || low.None? then None
      else
        var rest := DecodeHex(s[2..]);
        if rest.None? then None else Some([high.value * 16 + low.value] + rest.value)
  }

  lemma NibbleRoundTrip(n: nat)
    requires n < 16
    ensures DecodeNibble(HEX[n]) == Some(n)
  {
  }

  lemma NibbleText(c: char, n: nat)
    requires DecodeNibble(c) == Some(n)
    ensures n < 16 && HEX[n] == Lower(c)
  {
  }

  /** A tag survives its text form. */
  lemma {:induction false} HexRoundTrip(b: seq<byte>)
    ensures DecodeHex(EncodeHex(b)) == Some(b) && |EncodeHex(b)| == 2 * |b|
  {
    hide DecodeNibble;
    if b == [] {
    } else {
      HexRoundTrip(b[1..]);
      NibbleRoundTrip(b[0] / 16);
      NibbleRoundTrip(b[0] % 16);
      assert EncodeHex(b)[2..] == EncodeHex(b[1..]);
      assert b == [b[0]] + b[1..];
    }
  }

  /** Text that decodes to a tag is the text of that tag, up to letter case. */
  lemma {:induction false} DecodedText(s: string, b: seq<byte>)
    requires DecodeHex(s) == Some(b)
    ensures EncodeHex(b) == LowerAll(s)
    decreases |s|
  {
    if s == "" {
    } else {
      var high, low := DecodeNibble(s[0]).value, DecodeNibble(s[1]).value;
      DecodedText(s[2..], b[1..]);
      NibbleText(s[0], high);
      NibbleText(s[1], low);
      assert b[0] / 16 == high && b[0] % 16 == low;
      assert LowerAll(s) == [Lower(s[0])] + ([Lower(s[1])] + LowerAll(s[1..][1..]));
      assert s[1..][1..] == s[2..];
    }
  }

  /** `encode_hex`, pushing two digits for each byte. */
  method EncodeHexLoop(b: seq<byte>) returns (output: string)
    ensures output == EncodeHex(b)
  {
    output := "";
    var i := 0;
    while i < |b|
      invariant 0 <= i <= |b|
      invariant output + EncodeHex(b[i..]) == EncodeHex(b)
    {
      assert b[i..][1..] == b[i + 1..];
      output := output + [HEX[b[i] / 16]];
      output := output + [HEX[b[i] % 16]];
      i := i + 1;
    }
  }

  /** `decode_hex`: the length first, then two digits at a time into a fixed buffer. */
  method DecodeHexLoop(s: string, size: nat) returns (tag: Option<array<byte>>)
    ensures tag.Some? <==> |s| == 2 * size && DecodeHex(s).Some?
    ensures tag.Some? ==> tag.value.Length == size && tag.value[..] == DecodeHex(s).value
  {
    if |s| != size * 2 {
      return None;
    }
    var output := new byte[size](_ => 0);
    var i := 0;
    assert s[0..] == s;
    assert Behind([], DecodeHex(s)) == DecodeHex(s) by {
      if DecodeHex(s).Some? { assert [] + DecodeHex(s).value == DecodeHex(s).value; }
    }
    while i < size
      invariant 0 <= i <= size
      invariant DecodeHex(s) == Behind(output[..i], DecodeHex(s[2 * i..]))
    {
      assert s[2 * i..][2..] == s[2 * (i + 1)..];
      var high, low := DecodeNibble(s[2 * i]), DecodeNibble(s[2 * i + 1]);
      if high.None? || low.None? {
        return None;
      }
      NibbleText(s[2 * i], high.value);
      NibbleText(s[2 * i + 1], low.value);
      ghost var done := output[..i];
      output[i] := high.value * 16 + low.value;
      BehindMore(done, output[i], DecodeHex(s[2 * (i + 1)..]));
      assert output[..i + 1] == done + [output[i]];
      i := i + 1;
    }
    assert output[..size] == output[..];
    tag := Some(output);
  }

  /** What is decoded so far, before the rest. */
  function Behind(done: seq<byte>, rest: Option<seq<byte>>): Option<seq<byte>> {
    if rest.None? then None else Some(done + rest.value)
  }

  lemma BehindMore(done: seq<byte>, next: byte, rest: Option<seq<byte>>)
    ensures Behind(done, Behind([next], rest)) == Behind(done + [next], rest)
  {
    if rest.Some? { assert done + ([next] + rest.value) == (done + [next]) + rest.value; }
  }
}

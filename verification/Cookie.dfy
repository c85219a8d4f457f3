/** Decimal text, as Python's str(int) and int(str) read and write it. */
module Decimal {
  import opened Common

  function Digit(d: int): char
    requires 0 <= d < 10
  {
    ('0' as int + d) as char
  }

  function PrintNat(n: nat): (s: string)
    ensures s != "" && forall i :: 0 <= i < |s| ==> '0' <= s[i] <= '9'
  {
    if n < 10 then [Digit(n)] else PrintNat(n / 10) + [Digit(n % 10)]
  }

  function Print(n: int): string { if n < 0 then "-" + PrintNat(-n) else PrintNat(n) }

  /** Digits, with single underscores allowed between them. */
  function ParseDigits(s: string): Option<nat> {
    if s == "" || !('0' <= Last(s) <= '9') then None
    else
      var d := Last(s) as int - '0' as int;
      if |s| == 1 then Some(d)
      else
        var rest := ParseDigits(if s[|s| - 2] == '_' then s[..|s| - 2] else Front(s));
        if rest.None? then None else Some(10 * rest.value + d)
  }

  function Strip(s: string): string {
    if s != "" && IsSpace(s[0]) then Strip(s[1..])
    else if s != "" && IsSpace(Last(s)) then Strip(Front(s))
    else s
  }

  function Signed(sign: int, n: Option<nat>): Option<int> {
    if n.None? then None else Some(sign * n.value)
  }

  function ParseStripped(t: string): Option<int> {
    if t != "" && t[0] == '-' then Signed(-1, ParseDigits(t[1..]))
    else if t != "" && t[0] == '+' then Signed(1, ParseDigits(t[1..]))
    else Signed(1, ParseDigits(t))
  }

  /** int(s); None is the ValueError. */
  function Parse(s: string): Option<int> { ParseStripped(Strip(s)) }

  /** Positional notation: one more digit multiplies by ten. */
  lemma PrintIsPositional(n: nat, d: nat)
    requires 0 < n && d < 10
    ensures PrintNat(10 * n + d) == PrintNat(n) + ["0123456789"[d]]
    ensures PrintNat(d) == ["0123456789"[d]]
  {
    assert (10 * n + d) / 10 == n && (10 * n + d) % 10 == d;
  }

  lemma {:induction false} ParseDigitsPrint(n: nat)
    ensures ParseDigits(PrintNat(n)) == Some(n)
  {
    if n >= 10 {
      ParseDigitsPrint(n / 10);
      assert Front(PrintNat(n)) == PrintNat(n / 10);
    }
  }

  lemma StripKeeps(s: string)
    requires s != "" && !IsSpace(s[0]) && !IsSpace(Last(s))
    ensures Strip(s) == s
  {}

  /** Text that is all digits, and digits behind a minus sign. */
  lemma ParseSigned(digits: string, n: nat)
    requires digits != "" && '0' <= digits[0] <= '9' && '0' <= Last(digits) <= '9' && ParseDigits(digits) == Some(n)
    ensures Parse(digits) == Some(n) && Parse("-" + digits) == Some(0 - n)
  {
    StripKeeps(digits);
    var s := "-" + digits;
    assert s[0] == '-' && Last(s) == Last(digits) && s[1..] == digits;
    StripKeeps(s);
  }

  lemma ParsePrint(n: int)
    ensures Parse(Print(n)) == Some(n)
  {
    var m: nat := if n < 0 then -n else n;
    ParseDigitsPrint(m);
    ParseSigned(PrintNat(m), m);
  }
}

/**
 Base64 with the URL-safe alphabet (RFC 4648, section 5): encoding with padding (section 3.2), and the
 lenient decoder of Python's base64 module, character by character.
 */
module Base64 {
  import opened Common

  type Byte = b: int | 0 <= b < 256

  type Sextet = v: int | 0 <= v < 64

  function Symbol(v: Sextet): char {
    if v < 26 then (65 + v) as char
    else if v < 52 then (71 + v) as char
    else if v < 62 then (v - 4) as char
    else if v == 62 then '-'
    else '_'
  }

  /** The value of a character; the standard alphabet's '+' and '/' are understood too. */
  function Value(c: char): Option<Sextet> {
    if 'A' <= c <= 'Z' then Some(c as int - 65)
    else if 'a' <= c <= 'z' then Some(c as int - 71)
    else if '0' <= c <= '9' then Some(c as int + 4)
    else if c == '-' || c == '+' then Some(62)
    else if c == '_' || c == '/' then Some(63)
    else None
  }

  lemma ValueOfSymbol(v: Sextet)
    ensures Value(Symbol(v)) == Some(v) && Symbol(v) != '=' && Symbol(v) != '.' && Symbol(v) as int < 128
  {}

  /** The symbols are A to Z, a to z, 0 to 9, '-' and '_', in this order: the URL-safe table of RFC 4648. */
  lemma SymbolTable(v: Sextet)
    ensures v < 26 ==> Symbol(v) as int - 'A' as int == v
    ensures 26 <= v < 52 ==> Symbol(v) as int - 'a' as int == v - 26
    ensures 52 <= v < 62 ==> Symbol(v) as int - '0' as int == v - 52
    ensures v == 62 ==> Symbol(v) == '-'
    ensures v == 63 ==> Symbol(v) == '_'
  {}

  /** Three bytes as four symbols. */
  function Group(a: Byte, b: Byte, c: Byte): (g: string)
    ensures |g| == 4
  {
    [Symbol(a / 4), Symbol(a % 4 * 16 + b / 16), Symbol(b % 16 * 4 + c / 64), Symbol(c % 64)]
  }

  /** urlsafe_b64encode. */
  function Encode(data: seq<Byte>): string {
    if data == [] then ""
    else if |data| == 1 then [Symbol(data[0] / 4), Symbol(data[0] % 4 * 16), '=', '=']
    else if |data| == 2 then
      [Symbol(data[0] / 4), Symbol(data[0] % 4 * 16 + data[1] / 16), Symbol(data[1] % 16 * 4), '=']
    else Group(data[0], data[1], data[2]) + Encode(data[3..])
  }

  /** rstrip("="). */
  function StripPad(s: string): string {
    if s != "" && Last(s) == '=' then StripPad(Front(s)) else s
  }

  function Pad(n: nat): string { seq(n, _ => '=') }

  /** `_b64`. */
  function Unpadded(data: seq<Byte>): string { StripPad(Encode(data)) }

  /**
   The decoder's loop: `quad` characters of the current group of four are read, `left` holds their bits that
   are not yet written, `pads` counts the '=' seen since.  Characters outside the alphabet are skipped, and
   enough padding ends the reading.  None is the error of a group left incomplete.
   */
  function DecodeFrom(s: string, quad: nat, left: nat, pads: nat): Option<seq<Byte>>
    requires quad < 4 && left < 64 && (quad == 2 ==> left < 16) && (quad == 3 ==> left < 4)
  {
    if s == "" then if quad == 0 then Some([]) else None
    else if s[0] == '=' then
      if quad >= 2 && quad + pads + 1 >= 4 then Some([])
      else DecodeFrom(s[1..], quad, left, if quad >= 2 then pads + 1 else pads)
    else if Value(s[0]).None? then DecodeFrom(s[1..], quad, left, pads)
    else
      var v := Value(s[0]).value;
      match quad
      case 0 => DecodeFrom(s[1..], 1, v, 0)
      case 1 => Emit(left * 4 + v / 16, DecodeFrom(s[1..], 2, v % 16, 0))
      case 2 => Emit(left * 16 + v / 4, DecodeFrom(s[1..], 3, v % 4, 0))
      case 3 => Emit(left * 64 + v, DecodeFrom(s[1..], 0, 0, 0))
  }

  function Emit(b: Byte, rest: Option<seq<Byte>>): Option<seq<Byte>> {
    if rest.None? then None else Some([b] + rest.value)
  }

  /** urlsafe_b64decode; a character outside ASCII is an error. */
  function Decode(s: string): Option<seq<Byte>> {
    if exists i :: 0 <= i < |s| && s[i] as int >= 128 then None else DecodeFrom(s, 0, 0, 0)
  }

  /** `_unb64`: pad to a multiple of four, then decode. */
  function DecodeUnpadded(s: string): Option<seq<Byte>> { Decode(s + Pad(-|s| % 4)) }

  /** The text without the characters that mean nothing to the decoder. */
  function Meaningful(s: string): string {
    if s == "" then "" else When(s[0] == '=' || Value(s[0]).Some?, s[0]) + Meaningful(s[1..])
  }

  /** Characters outside the alphabet are skipped wherever they stand. */
  lemma {:induction false} StraysAreSkipped(s: string, quad: nat, left: nat, pads: nat)
    requires quad < 4 && left < 64 && (quad == 2 ==> left < 16) && (quad == 3 ==> left < 4)
    ensures DecodeFrom(s, quad, left, pads) == DecodeFrom(Meaningful(s), quad, left, pads)
  {
    if s != "" {
      var rest := Meaningful(s[1..]);
      if s[0] == '=' {
        assert Meaningful(s)[1..] == rest;
        StraysAreSkipped(s[1..], quad, left, if quad >= 2 then pads + 1 else pads);
      } else if Value(s[0]).None? {
        assert Meaningful(s) == rest;
        StraysAreSkipped(s[1..], quad, left, pads);
      } else {
        assert Meaningful(s)[1..] == rest;
        var v := Value(s[0]).value;
        match quad
        case 0 => StraysAreSkipped(s[1..], 1, v, 0);
        case 1 => StraysAreSkipped(s[1..], 2, v % 16, 0);
        case 2 => StraysAreSkipped(s[1..], 3, v % 4, 0);
        case 3 => StraysAreSkipped(s[1..], 0, 0, 0);
      }
    }
  }

  predicate Plain(s: string) {
    forall i :: 0 <= i < |s| ==> s[i] != '=' && s[i] != '.' && s[i] as int < 128
  }

  lemma {:induction false} StripPadExact(s: string, k: nat)
    requires Plain(s)
    ensures StripPad(s + Pad(k)) == s
  {
    if k == 0 {
      assert s + Pad(0) == s;
    } else {
      assert Front(s + Pad(k)) == s + Pad(k - 1);
      StripPadExact(s, k - 1);
    }
  }

  /** The encoding without its padding. */
  ghost function Body(data: seq<Byte>): string {
    if data == [] then ""
    else if |data| == 1 then [Symbol(data[0] / 4), Symbol(data[0] % 4 * 16)]
    else if |data| == 2 then
      [Symbol(data[0] / 4), Symbol(data[0] % 4 * 16 + data[1] / 16), Symbol(data[1] % 16 * 4)]
    else Group(data[0], data[1], data[2]) + Body(data[3..])
  }

  function Missing(n: int): nat { -n % 4 }

  lemma {:induction false} BodyPlain(data: seq<Byte>)
    ensures Plain(Body(data))
  {
    forall v: Sextet ensures Symbol(v) != '=' && Symbol(v) != '.' && Symbol(v) as int < 128 { ValueOfSymbol(v); }
    if |data| >= 3 { BodyPlain(data[3..]); }
  }

  function PadLength(n: nat): nat { if n % 3 == 0 then 0 else 3 - n % 3 }

  lemma LengthsShift(n: nat, m: nat)
    ensures PadLength(n + 3) == PadLength(n) && Missing(m + 4) == Missing(m)
  {}

  lemma {:induction false} BodyLength(data: seq<Byte>)
    ensures Missing(|Body(data)|) == PadLength(|data|)
  {
    if |data| >= 3 {
      BodyLength(data[3..]);
      LengthsShift(|data[3..]|, |Body(data[3..])|);
    } else {
      assert Missing(0) == 0 && Missing(2) == 2 && Missing(3) == 1;
    }
  }

  lemma {:induction false} EncodeIsPaddedBody(data: seq<Byte>)
    ensures Encode(data) == Body(data) + Pad(PadLength(|data|))
  {
    if |data| >= 3 {
      EncodeIsPaddedBody(data[3..]);
      LengthsShift(|data[3..]|, 0);
      var g, body, pad := Group(data[0], data[1], data[2]), Body(data[3..]), Pad(PadLength(|data|));
      assert g + (body + pad) == g + body + pad;
    } else {
      assert Pad(0) == "" && Pad(1) == "=" && Pad(2) == "==";
    }
  }

  /** The length rule `-len % 4` finds exactly the padding that rstrip removed. */
  lemma PadRestores(data: seq<Byte>)
    ensures Plain(Unpadded(data))
    ensures Unpadded(data) + Pad(-|Unpadded(data)| % 4) == Encode(data)
  {
    UnpaddedIsBody(data);
    BodyPlain(data);
    BodyLength(data);
    EncodeIsPaddedBody(data);
  }

  lemma UnpaddedIsBody(data: seq<Byte>)
    ensures Unpadded(data) == Body(data)
  {
    BodyPlain(data);
    EncodeIsPaddedBody(data);
    StripPadExact(Body(data), PadLength(|data|));
  }

  /** One symbol: six bits into the loop's state. */
  lemma SymbolDecodes(v: Sextet, rest: string, quad: nat, left: nat)
    requires quad < 4 && left < 64 && (quad == 2 ==> left < 16) && (quad == 3 ==> left < 4)
    ensures DecodeFrom([Symbol(v)] + rest, quad, left, 0)
         == match quad
            case 0 => DecodeFrom(rest, 1, v, 0)
            case 1 => Emit(left * 4 + v / 16, DecodeFrom(rest, 2, v % 16, 0))
            case 2 => Emit(left * 16 + v / 4, DecodeFrom(rest, 3, v % 4, 0))
            case 3 => Emit(left * 64 + v, DecodeFrom(rest, 0, 0, 0))
  {
    ValueOfSymbol(v);
    assert ([Symbol(v)] + rest)[1..] == rest;
  }

  /** The second half of a group of four symbols. */
  lemma HalfGroup(v2: Sextet, v3: Sextet, rest: string, left: nat)
    requires left < 16
    ensures DecodeFrom([Symbol(v2)] + ([Symbol(v3)] + rest), 2, left, 0)
         == Emit(left * 16 + v2 / 4, Emit(v2 % 4 * 64 + v3, DecodeFrom(rest, 0, 0, 0)))
  {
    SymbolDecodes(v2, [Symbol(v3)] + rest, 2, left);
    SymbolDecodes(v3, rest, 3, v2 % 4);
  }

  /** The first half, in front of whatever decodes after it. */
  lemma FirstHalf(v0: Sextet, v1: Sextet, rest: string)
    ensures DecodeFrom([Symbol(v0)] + ([Symbol(v1)] + rest), 0, 0, 0)
         == Emit(v0 * 4 + v1 / 16, DecodeFrom(rest, 2, v1 % 16, 0))
  {
    SymbolDecodes(v0, [Symbol(v1)] + rest, 0, 0);
    SymbolDecodes(v1, rest, 1, v0);
  }

  /** Three bytes cut into sextets and put together again. */
  lemma Bits(a: Byte, b: Byte, c: Byte)
    ensures var v0, v1, v2, v3 := a / 4, a % 4 * 16 + b / 16, b % 16 * 4 + c / 64, c % 64;
            v0 * 4 + v1 / 16 == a && v1 % 16 * 16 + v2 / 4 == b && v2 % 4 * 64 + v3 == c
  {}

  /** The four symbols of a group spell the same 24-bit number as its three bytes. */
  lemma GroupIsOneNumber(a: Byte, b: Byte, c: Byte)
    ensures exists v0: Sextet, v1: Sextet, v2: Sextet, v3: Sextet ::
              Group(a, b, c) == [Symbol(v0), Symbol(v1), Symbol(v2), Symbol(v3)]
              && ((v0 * 64 + v1) * 64 + v2) * 64 + v3 == (a * 256 + b) * 256 + c
  {
    var v0: Sextet, v1: Sextet, v2: Sextet, v3: Sextet := a / 4, a % 4 * 16 + b / 16, b % 16 * 4 + c / 64, c % 64;
    assert Group(a, b, c) == [Symbol(v0), Symbol(v1), Symbol(v2), Symbol(v3)];
    assert ((v0 * 64 + v1) * 64 + v2) * 64 + v3 == (a * 256 + b) * 256 + c;
  }

  lemma GroupDecodes(a: Byte, b: Byte, c: Byte, rest: string)
    ensures DecodeFrom(Group(a, b, c) + rest, 0, 0, 0)
         == Emit(a, Emit(b, Emit(c, DecodeFrom(rest, 0, 0, 0))))
  {
    var v0, v1, v2, v3 := a / 4, a % 4 * 16 + b / 16, b % 16 * 4 + c / 64, c % 64;
    var tail := [Symbol(v2)] + ([Symbol(v3)] + rest);
    assert Group(a, b, c) + rest == [Symbol(v0)] + ([Symbol(v1)] + tail);
    FirstHalf(v0, v1, tail);
    HalfGroup(v2, v3, rest, v1 % 16);
    Bits(a, b, c);
  }

  lemma PaddingDecodes(left: nat)
    requires left < 4
    ensures DecodeFrom("==", 2, left, 0) == Some([]) && DecodeFrom("=", 3, left, 0) == Some([])
  {
    assert "=="[1..] == "=";
  }

  lemma TwoDecode(a: Byte, b: Byte)
    ensures DecodeFrom([Symbol(a / 4), Symbol(a % 4 * 16 + b / 16), Symbol(b % 16 * 4), '='], 0, 0, 0) == Some([a, b])
  {
    var v0, v1, v2 := a / 4, a % 4 * 16 + b / 16, b % 16 * 4;
    var tail := [Symbol(v2)] + "=";
    assert [Symbol(v0), Symbol(v1), Symbol(v2), '='] == [Symbol(v0)] + ([Symbol(v1)] + tail);
    FirstHalf(v0, v1, tail);
    SymbolDecodes(v2, "=", 2, v1 % 16);
    PaddingDecodes(v2 % 4);
    Bits(a, b, 0);
    assert [a] + ([b] + []) == [a, b];
  }

  lemma OneDecodes(a: Byte)
    ensures DecodeFrom([Symbol(a / 4), Symbol(a % 4 * 16), '=', '='], 0, 0, 0) == Some([a])
  {
    var v0, v1 := a / 4, a % 4 * 16;
    assert [Symbol(v0), Symbol(v1), '=', '='] == [Symbol(v0)] + ([Symbol(v1)] + "==");
    FirstHalf(v0, v1, "==");
    PaddingDecodes(v1 % 16);
    Bits(a, 0, 0);
    assert [a] + [] == [a];
  }

  lemma {:induction false} DecodeEncode(data: seq<Byte>)
    ensures DecodeFrom(Encode(data), 0, 0, 0) == Some(data)
  {
    if |data| == 1 {
      OneDecodes(data[0]);
      assert data == [data[0]];
    } else if |data| == 2 {
      TwoDecode(data[0], data[1]);
      assert data == [data[0], data[1]];
    } else if |data| >= 3 {
      GroupDecodes(data[0], data[1], data[2], Encode(data[3..]));
      DecodeEncode(data[3..]);
      assert data == [data[0]] + ([data[1]] + ([data[2]] + data[3..]));
    }
  }

  lemma EncodeAscii(data: seq<Byte>)
    ensures forall i :: 0 <= i < |Encode(data)| ==> Encode(data)[i] as int < 128
  {
    BodyPlain(data);
    EncodeIsPaddedBody(data);
  }

  /** `_unb64(_b64(data)) == data`, for every byte string. */
  lemma UnpaddedRoundTrip(data: seq<Byte>)
    ensures DecodeUnpadded(Unpadded(data)) == Some(data)
  {
    PadRestores(data);
    DecodeEncode(data);
    EncodeAscii(data);
  }
}

/** control_plane/auth.py: the signed session cookie. */
module SessionCookie {
  import opened Common
  import opened Base64
  import Decimal

  /**
   `derive` is the SHA-256 key derivation from the configured token, `hmac` is HMAC-SHA-256; nothing is
   assumed about either but that a derived key is not empty.
   */
  datatype Crypto = Crypto(derive: string -> seq<Byte>, hmac: (seq<Byte>, seq<Byte>) -> seq<Byte>)

  ghost predicate KeysNonEmpty(c: Crypto) { forall t :: c.derive(t) != [] }

  function Key(c: Crypto, token: string): seq<Byte> { if token == "" then [] else c.derive(token) }

  /** int(float): toward zero. */
  function Trunc(r: real): int { if r >= 0.0 then r.Floor else -((-r).Floor) }

  /** Truncation goes toward zero: never away from it, and by less than one. */
  lemma TruncTowardZero(r: real)
    ensures r >= 0.0 ==> 0 <= Trunc(r) && Trunc(r) as real <= r < (Trunc(r) + 1) as real
    ensures r < 0.0 ==> Trunc(r) <= 0 && (Trunc(r) - 1) as real < r <= Trunc(r) as real
  {}

  /** "v1.<timestamp>" in ASCII. */
  function Payload(ts: int): (bytes: seq<Byte>) {
    var text := "v1." + Decimal.Print(ts);
    seq(|text|, i requires 0 <= i < |text| => if text[i] as int < 128 then text[i] as int else 0)
  }

  /** bytes.decode, for ASCII. */
  function Ascii(bytes: seq<Byte>): Option<string> {
    if exists i :: 0 <= i < |bytes| && bytes[i] >= 128 then None
    else Some(seq(|bytes|, i requires 0 <= i < |bytes| => bytes[i] as char))
  }

  /** mint_session_cookie_value; None is the RuntimeError when no token is configured. */
  function Mint(c: Crypto, token: string, now: real): Option<string> {
    var key := Key(c, token);
    if key == [] then None
    else
      var payload := Payload(Trunc(now));
      Some(Unpadded(payload) + "." + Unpadded(c.hmac(key, payload)))
  }

  /** value.split(".", 1); None when there is no dot. */
  function SplitAtDot(s: string): Option<(string, string)> {
    if s == "" then None
    else if s[0] == '.' then Some(("", s[1..]))
    else
      var r := SplitAtDot(s[1..]);
      if r.None? then None else Some(([s[0]] + r.value.0, r.value.1))
  }

  /** The timestamp of a payload text that carries one. */
  function Stamp(text: string): Option<int> {
    if !("v1." <= text) then None
    else
      var parts := SplitAtDot(text);
      if parts.None? then None else Decimal.Parse(parts.value.1)
  }

  function Timely(ts: int, current: int, ttl: int): bool { current - ts <= ttl && ts <= current + 60 }

  /** verify_session_cookie_value, with the exceptions of the source as refusals. */
  function Verify(c: Crypto, token: string, value: string, now: real, ttl: int): bool {
    if value == "" || |token| < 16 || Key(c, token) == [] then false
    else
      var parts := SplitAtDot(value);
      if parts.None? then false
      else
        var payload, sig := DecodeUnpadded(parts.value.0), DecodeUnpadded(parts.value.1);
        if payload.None? || sig.None? || sig.value != c.hmac(Key(c, token), payload.value) then false
        else
          var text := Ascii(payload.value);
          if text.None? || Stamp(text.value).None? then false
          else Timely(Stamp(text.value).value, Trunc(now), ttl)
  }

  lemma {:induction false} SplitFirstDot(a: string, b: string)
    requires '.' !in a
    ensures SplitAtDot(a + "." + b) == Some((a, b))
  {
    if a == "" {
      assert a + "." + b == "." + b && ("." + b)[1..] == b;
    } else {
      SplitFirstDot(a[1..], b);
      assert (a + "." + b)[1..] == a[1..] + "." + b;
      assert a == [a[0]] + a[1..];
    }
  }

  lemma PayloadReads(ts: int)
    ensures Ascii(Payload(ts)).Some? && Stamp(Ascii(Payload(ts)).value) == Some(ts)
  {
    var digits := Decimal.Print(ts);
    var text := "v1." + digits;
    assert forall i :: 0 <= i < |digits| ==> digits[i] as int < 128;
    assert forall i :: 0 <= i < |text| ==> text[i] as int < 128 by {
      forall i | 0 <= i < |text| ensures text[i] as int < 128 {
        if i >= 3 { assert text[i] == digits[i - 3]; }
      }
    }
    assert Ascii(Payload(ts)).value == text;
    assert text == "v1" + "." + digits;
    SplitFirstDot("v1", digits);
    Decimal.ParsePrint(ts);
  }

  /** What a verifier recovers from a minted cookie. */
  lemma MintedParts(c: Crypto, token: string, issued: real)
    requires Mint(c, token, issued).Some?
    ensures var value, payload := Mint(c, token, issued).value, Payload(Trunc(issued));
            && value != "" && SplitAtDot(value).Some?
            && DecodeUnpadded(SplitAtDot(value).value.0) == Some(payload)
            && DecodeUnpadded(SplitAtDot(value).value.1) == Some(c.hmac(Key(c, token), payload))
  {
    var payload := Payload(Trunc(issued));
    var sig := c.hmac(Key(c, token), payload);
    PadRestores(payload);
    SplitFirstDot(Unpadded(payload), Unpadded(sig));
    UnpaddedRoundTrip(payload);
    UnpaddedRoundTrip(sig);
  }

  /**
   A cookie minted under one token and presented under another is accepted exactly when the second token is
   long enough, both keys sign the payload alike, and the cookie is neither too old nor more than a minute
   ahead.
   */
  lemma MintedCookieVerifies(c: Crypto, token: string, other: string, issued: real, now: real, ttl: int)
    requires KeysNonEmpty(c) && token != ""
    ensures Mint(c, token, issued).Some?
    ensures Verify(c, other, Mint(c, token, issued).value, now, ttl) <==>
            && |other| >= 16
            && c.hmac(Key(c, other), Payload(Trunc(issued))) == c.hmac(Key(c, token), Payload(Trunc(issued)))
            && Trunc(now) - Trunc(issued) <= ttl && Trunc(issued) <= Trunc(now) + 60
  {
    MintedParts(c, token, issued);
    PayloadReads(Trunc(issued));
  }

  /** The round trip under one token: any token can mint, but only one of 16 characters or more verifies. */
  lemma CookieRoundTrip(c: Crypto, token: string, issued: real, now: real, ttl: int)
    requires KeysNonEmpty(c) && token != ""
    ensures Mint(c, token, issued).Some?
    ensures Verify(c, token, Mint(c, token, issued).value, now, ttl) <==>
            |token| >= 16 && Trunc(now) - Trunc(issued) <= ttl && Trunc(issued) <= Trunc(now) + 60
  {
    MintedCookieVerifies(c, token, token, issued, now, ttl);
  }

  /** Cookies of different seconds differ, whatever the signatures do. */
  lemma CookiesTellTime(c: Crypto, token: string, a: real, b: real)
    requires KeysNonEmpty(c) && token != "" && Mint(c, token, a) == Mint(c, token, b)
    ensures Trunc(a) == Trunc(b)
  {
    MintedParts(c, token, a);
    MintedParts(c, token, b);
    PayloadReads(Trunc(a));
    PayloadReads(Trunc(b));
  }

  /** Nothing is accepted without a signature by the configured key over a timely "v1." payload. */
  lemma AcceptedIsSigned(c: Crypto, token: string, value: string, now: real, ttl: int)
    requires Verify(c, token, value, now, ttl)
    ensures exists ts, rest, payload, sig ::
              && value == payload + "." + sig && '.' !in payload
              && DecodeUnpadded(payload).Some? && Ascii(DecodeUnpadded(payload).value) == Some("v1." + rest)
              && Decimal.Parse(rest) == Some(ts) && Timely(ts, Trunc(now), ttl)
              && DecodeUnpadded(sig) == Some(c.hmac(c.derive(token), DecodeUnpadded(payload).value))
  {
    var parts := SplitAtDot(value).value;
    var text := Ascii(DecodeUnpadded(parts.0).value).value;
    SplitJoins(value);
    assert text == "v1" + "." + text[3..];
    SplitFirstDot("v1", text[3..]);
    assert text == "v1." + text[3..];
    var ts, rest, payload, sig := Stamp(text).value, text[3..], parts.0, parts.1;
    assert value == payload + "." + sig && '.' !in payload
           && DecodeUnpadded(payload).Some? && Ascii(DecodeUnpadded(payload).value) == Some("v1." + rest)
           && Decimal.Parse(rest) == Some(ts) && Timely(ts, Trunc(now), ttl)
           && DecodeUnpadded(sig) == Some(c.hmac(c.derive(token), DecodeUnpadded(payload).value));
  }

  lemma {:induction false} SplitJoins(s: string)
    requires SplitAtDot(s).Some?
    ensures var p := SplitAtDot(s).value; s == p.0 + "." + p.1 && '.' !in p.0
  {
    if s[0] == '.' {
      assert s == "" + "." + s[1..];
    } else {
      SplitJoins(s[1..]);
      assert s == [s[0]] + s[1..];
    }
  }
}

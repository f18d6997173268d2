/** The two Steam tokens as the agent formats them (`getExternalAccessToken`,
    `getAppTicket`) once the Steam client has produced the raw ticket bytes:
    copy the bytes into a zero-filled buffer of fixed size, truncating what
    does not fit, and hex-encode the buffer; the app ticket is then
    upper-cased and stripped of hyphens.

    `Unhex` reads such a string back; it is the inverse the layout lemmas are
    stated against. */
module Tokens {
  import opened Json

  newtype byte = x: int | 0 <= x < 256

  /** `Buffer.alloc(1024)` in `getExternalAccessToken`. */
  const AccessTokenSize: nat := 1024
  /** `Buffer.alloc(2048)` in `getAppTicket`. */
  const AppTicketSize: nat := 2048

  /** `Buffer.alloc(size)` followed by `ticket.copy(buffer)`: the first
      `size` bytes of the ticket, then zeros up to `size`. */
  function PadTo(ticket: seq<byte>, size: nat): (buf: seq<byte>)
    ensures |buf| == size
    ensures forall i :: 0 <= i < size ==> buf[i] == if i < |ticket| then ticket[i] else 0
  {
    if size <= |ticket| then ticket[..size] else ticket + Zeros(size - |ticket|)
  }

  function Zeros(n: nat): (z: seq<byte>)
    ensures |z| == n && forall i :: 0 <= i < n ==> z[i] == 0
  {
    seq(n, _ => 0)
  }

  /** The lower-case hex digit of `d`, as `Buffer.toString('hex')` writes it. */
  function HexDigit(d: nat): char
    requires d < 16
  {
    if d < 10 then ('0' as int + d) as char else ('a' as int + d - 10) as char
  }

  function HexByte(b: byte): string
  {
    [HexDigit(b as int / 16), HexDigit(b as int % 16)]
  }

  /** `Buffer.toString('hex')`: two lower-case digits per byte, high nibble
      first. */
  function Hex(bytes: seq<byte>): (s: string)
    ensures |s| == 2 * |bytes|
  {
    if bytes == [] then [] else HexByte(bytes[0]) + Hex(bytes[1..])
  }

  /** `toUpperCase` on the ASCII letters, the only letters hex output has. */
  function UpperChar(c: char): char
  {
    if 'a' <= c <= 'z' then (c as int - 32) as char else c
  }

  function Upper(s: string): (u: string)
    ensures |u| == |s|
    ensures forall i :: 0 <= i < |s| && IsLowerHexDigit(s[i]) ==>
              IsUpperHexDigit(u[i]) && DigitValue(u[i]) == DigitValue(s[i])
  {
    seq(|s|, i requires 0 <= i < |s| => UpperChar(s[i]))
  }

  /** `replace(/-/g, '')`. */
  function StripHyphens(s: string): (r: string)
    ensures |r| <= |s|
    ensures forall i :: 0 <= i < |r| ==> r[i] != '-'
    ensures forall c :: c != '-' ==> multiset(r)[c] == multiset(s)[c]
    decreases |s|
  {
    if s == [] then []
    else
      assert s == [s[0]] + s[1..];
      (if s[0] == '-' then [] else [s[0]]) + StripHyphens(s[1..])
  }

  /** `getExternalAccessToken` without the Steam call: 2048 lower-case hex
      digits that decode to the padded 1024-byte buffer. */
  function AccessToken(sessionTicket: seq<byte>): (t: string)
    ensures |t| == 2 * AccessTokenSize
    ensures forall i :: 0 <= i < |t| ==> IsLowerHexDigit(t[i])
    ensures Unhex(t) == Some(PadTo(sessionTicket, AccessTokenSize))
  {
    var buf := PadTo(sessionTicket, AccessTokenSize);
    HexDigitsOnly(buf);
    UnhexHex(buf);
    Hex(buf)
  }

  /** `getAppTicket` without the Steam call: 4096 upper-case hex digits that
      decode to the padded 2048-byte buffer. */
  function AppTicket(appTicket: seq<byte>): (t: string)
    ensures |t| == 2 * AppTicketSize
    ensures forall i :: 0 <= i < |t| ==> IsUpperHexDigit(t[i])
    ensures Unhex(t) == Some(PadTo(appTicket, AppTicketSize))
  {
    var buf := PadTo(appTicket, AppTicketSize);
    var u := Upper(Hex(buf));
    HexDigitsOnly(buf);
    StripHyphensNoop(u);
    UnhexUpperHex(buf);
    StripHyphens(u)
  }

  /** The value of one hex digit of either case. */
  function DigitValue(c: char): (v: Option<nat>)
    ensures v.Some? ==> v.value < 16
  {
    if '0' <= c <= '9' then Some(c as int - '0' as int)
    else if 'a' <= c <= 'f' then Some(c as int - 'a' as int + 10)
    else if 'A' <= c <= 'F' then Some(c as int - 'A' as int + 10)
    else None
  }

  /** Hex decoding, two digits per byte; None on an odd length or a non-hex
      character. */
  function Unhex(s: string): Option<seq<byte>>
    decreases |s|
  {
    if |s| == 0 then Some([])
    else if |s| == 1 then None
    else
      var hi, lo, rest := DigitValue(s[0]), DigitValue(s[1]), Unhex(s[2..]);
      if hi.None? || lo.None? || rest.None? then None
      else Some([(hi.value * 16 + lo.value) as byte] + rest.value)
  }

  predicate IsLowerHexDigit(c: char)
  {
    '0' <= c <= '9' || 'a' <= c <= 'f'
  }

  predicate IsUpperHexDigit(c: char)
  {
    '0' <= c <= '9' || 'A' <= c <= 'F'
  }

  lemma DigitRoundTrip(d: nat)
    requires d < 16
    ensures IsLowerHexDigit(HexDigit(d))
    ensures DigitValue(HexDigit(d)) == Some(d)
    ensures IsUpperHexDigit(UpperChar(HexDigit(d)))
    ensures DigitValue(UpperChar(HexDigit(d))) == Some(d)
  {
  }

  lemma {:induction false} HexAppend(a: seq<byte>, b: seq<byte>)
    ensures Hex(a + b) == Hex(a) + Hex(b)
    decreases |a|
  {
    if a != [] {
      assert (a + b)[0] == a[0];
      assert (a + b)[1..] == a[1..] + b;
      HexAppend(a[1..], b);
      calc {
        Hex(a + b);
        HexByte(a[0]) + Hex(a[1..] + b);
        HexByte(a[0]) + (Hex(a[1..]) + Hex(b));
        (HexByte(a[0]) + Hex(a[1..])) + Hex(b);
        Hex(a) + Hex(b);
      }
    } else {
      assert a + b == b;
    }
  }

  /** Hex output is made of lower-case hex digits only. */
  lemma {:induction false} HexDigitsOnly(bytes: seq<byte>)
    ensures forall i :: 0 <= i < |Hex(bytes)| ==> IsLowerHexDigit(Hex(bytes)[i])
    decreases |bytes|
  {
    if bytes != [] {
      DigitRoundTrip(bytes[0] as int / 16);
      DigitRoundTrip(bytes[0] as int % 16);
      HexDigitsOnly(bytes[1..]);
    }
  }

  /** A zero byte is written "00". */
  lemma {:induction false} HexOfZeros(n: nat)
    ensures forall i :: 0 <= i < 2 * n ==> Hex(Zeros(n))[i] == '0'
    decreases n
  {
    if n > 0 {
      assert Zeros(n)[1..] == Zeros(n - 1);
      HexOfZeros(n - 1);
    }
  }

  /** Decoding undoes `Hex`. */
  lemma {:induction false} UnhexHex(bytes: seq<byte>)
    ensures Unhex(Hex(bytes)) == Some(bytes)
    decreases |bytes|
  {
    if bytes != [] {
      var b := bytes[0] as int;
      DigitRoundTrip(b / 16);
      DigitRoundTrip(b % 16);
      var s := Hex(bytes);
      assert s[2..] == Hex(bytes[1..]);
      UnhexHex(bytes[1..]);
      assert [bytes[0]] + bytes[1..] == bytes;
    }
  }

  /** Decoding undoes upper-cased `Hex` as well. */
  lemma {:induction false} UnhexUpperHex(bytes: seq<byte>)
    ensures Unhex(Upper(Hex(bytes))) == Some(bytes)
    decreases |bytes|
  {
    if bytes != [] {
      var b := bytes[0] as int;
      DigitRoundTrip(b / 16);
      DigitRoundTrip(b % 16);
      var s := Upper(Hex(bytes));
      assert s[2..] == Upper(Hex(bytes[1..]));
      UnhexUpperHex(bytes[1..]);
      assert [bytes[0]] + bytes[1..] == bytes;
    }
  }

  /** Removing hyphens from a string without any changes nothing. */
  lemma {:induction false} StripHyphensNoop(s: string)
    requires forall i :: 0 <= i < |s| ==> s[i] != '-'
    ensures StripHyphens(s) == s
    decreases |s|
  {
    if s != [] {
      StripHyphensNoop(s[1..]);
    }
  }

  /** On one character, `replace(/-/g, '')` drops a hyphen and keeps anything
      else. */
  lemma StripHyphensSingle(c: char)
    ensures StripHyphens([c]) == if c == '-' then [] else [c]
  {
    assert [c][1..] == [];
  }

  /** `replace(/-/g, '')` works character by character: stripping a
      concatenation strips each part and keeps them in order. With
      `StripHyphensSingle` this fixes the result on every string. */
  lemma {:induction false} StripHyphensAppend(a: string, b: string)
    ensures StripHyphens(a + b) == StripHyphens(a) + StripHyphens(b)
    decreases |a|
  {
    if a == [] {
      assert a + b == b;
    } else {
      assert (a + b)[0] == a[0];
      assert (a + b)[1..] == a[1..] + b;
      StripHyphensAppend(a[1..], b);
    }
  }

  /** A ticket of at most 1024 bytes appears hex-encoded at the front of the
      external access token and the rest is "00" pairs; a longer one is cut to
      its first 1024 bytes. */
  lemma AccessTokenLayout(sessionTicket: seq<byte>)
    ensures |sessionTicket| <= AccessTokenSize ==>
              AccessToken(sessionTicket)[..2 * |sessionTicket|] == Hex(sessionTicket) &&
              forall i :: 2 * |sessionTicket| <= i < 2 * AccessTokenSize ==> AccessToken(sessionTicket)[i] == '0'
    ensures AccessTokenSize < |sessionTicket| ==>
              AccessToken(sessionTicket) == Hex(sessionTicket[..AccessTokenSize])
  {
    if |sessionTicket| <= AccessTokenSize {
      var zeros := Zeros(AccessTokenSize - |sessionTicket|);
      assert PadTo(sessionTicket, AccessTokenSize) == sessionTicket + zeros;
      HexAppend(sessionTicket, zeros);
      HexOfZeros(|zeros|);
    }
  }

  /** Removing hyphens from the upper-cased hex changes nothing: the app
      ticket is exactly the upper-cased hex of the padded 2048-byte buffer. */
  lemma AppTicketLayout(appTicket: seq<byte>)
    ensures AppTicket(appTicket) == Upper(Hex(PadTo(appTicket, AppTicketSize)))
  {
    var buf := PadTo(appTicket, AppTicketSize);
    HexDigitsOnly(buf);
    StripHyphensNoop(Upper(Hex(buf)));
  }
}

/**
 * Base64 decoding as Go's `base64.StdEncoding.DecodeString` does it: the alphabet and
 * the `=` padding of section 4 of RFC 4648, with two Go-specific leniencies:
 * carriage returns and line feeds are skipped wherever they occur, and the unused low
 * bits of a padded final quantum need not be zero (the encoding is not `Strict()`).
 *
 * Go strings are byte strings; here a string is a `seq<char>` with one character per
 * byte, so a character at or above 128 stands for a byte outside the alphabet.
 */
module Base64 {
  import opened Outcome

  newtype byte = x: int | 0 <= x < 256

  const PadChar: char := '='

  /** The 64 characters of the standard alphabet (RFC 4648, section 4, Table 1). */
  predicate IsAlphabet(c: char) {
    ('A' <= c <= 'Z') || ('a' <= c <= 'z') || ('0' <= c <= '9') || c == '+' || c == '/'
  }

  /** The 6-bit value of an alphabet character. */
  function CharValue(c: char): (v: nat)
    requires IsAlphabet(c)
    ensures v < 64
  {
    if 'A' <= c <= 'Z' then c as int - 'A' as int
    else if 'a' <= c <= 'z' then c as int - 'a' as int + 26
    else if '0' <= c <= '9' then c as int - '0' as int + 52
    else if c == '+' then 62
    else 63
  }

  /** The alphabet character encoding a 6-bit value. */
  function ValueChar(v: nat): (c: char)
    requires v < 64
    ensures IsAlphabet(c) && CharValue(c) == v
  {
    if v < 26 then ('A' as int + v) as char
    else if v < 52 then ('a' as int + (v - 26)) as char
    else if v < 62 then ('0' as int + (v - 52)) as char
    else if v == 62 then '+'
    else '/'
  }

  predicate IsNewline(c: char) {
    c == '\r' || c == '\n'
  }

  /** The input with every carriage return and line feed removed. */
  function StripNewlines(s: string): (t: string)
    ensures |t| <= |s|
    ensures forall i :: 0 <= i < |t| ==> !IsNewline(t[i])
  {
    if s == [] then []
    else if IsNewline(s[0]) then StripNewlines(s[1..])
    else [s[0]] + StripNewlines(s[1..])
  }

  // ---------------------------------------------------------------------------------
  // Decoding
  // ---------------------------------------------------------------------------------

  /** The three bytes carried by four alphabet characters. */
  function DecodeQuantum(c0: nat, c1: nat, c2: nat, c3: nat): seq<byte>
    requires c0 < 64 && c1 < 64 && c2 < 64 && c3 < 64
  {
    [(c0 * 4 + c1 / 16) as byte, ((c1 % 16) * 16 + c2 / 4) as byte, ((c2 % 4) * 64 + c3) as byte]
  }

  predicate AllAlphabet(q: string) {
    forall i :: 0 <= i < |q| ==> IsAlphabet(q[i])
  }

  /**
   * Decodes text that holds no line breaks, four characters at a time. A final
   * quantum may be `xx==` (one byte) or `xxx=` (two bytes); nothing may follow it.
   */
  function DecodeQuanta(t: string): Option<seq<byte>>
    decreases |t|
  {
    if |t| == 0 then Some([])
    else if |t| < 4 then None
    else if AllAlphabet(t[..4]) then
      match DecodeQuanta(t[4..])
      case None => None
      case Some(rest) =>
        Some(DecodeQuantum(CharValue(t[0]), CharValue(t[1]), CharValue(t[2]), CharValue(t[3])) + rest)
    else if |t| == 4 && IsAlphabet(t[0]) && IsAlphabet(t[1]) && t[2] == PadChar && t[3] == PadChar then
      Some(DecodeQuantum(CharValue(t[0]), CharValue(t[1]), 0, 0)[..1])
    else if |t| == 4 && IsAlphabet(t[0]) && IsAlphabet(t[1]) && IsAlphabet(t[2]) && t[3] == PadChar then
      Some(DecodeQuantum(CharValue(t[0]), CharValue(t[1]), CharValue(t[2]), 0)[..2])
    else None
  }

  /**
   * `base64.StdEncoding.DecodeString`: `None` stands for Go's `CorruptInputError`.
   * It succeeds exactly when the text without line breaks is well formed, and then
   * yields three bytes per quantum less one per pad character.
   */
  function DecodeString(s: string): (r: Option<seq<byte>>)
    ensures r.Some? <==> WellFormed(StripNewlines(s))
    ensures r.Some? ==> |r.value| == DecodedLength(StripNewlines(s))
  {
    DecodeQuantaAcceptsExactlyWellFormed(StripNewlines(s));
    DecodeQuanta(StripNewlines(s))
  }

  // ---------------------------------------------------------------------------------
  // The valid inputs, stated without reference to the decoder
  // ---------------------------------------------------------------------------------

  /** How many of the last two characters are padding (`=`) in a well-placed way. */
  function PadLength(t: string): nat {
    if |t| >= 1 && t[|t| - 1] == PadChar then
      (if |t| >= 2 && t[|t| - 2] == PadChar then 2 else 1)
    else 0
  }

  /**
   * Standard base64 text without line breaks: a whole number of four-character
   * quanta, every character from the alphabet except one or two trailing pads.
   */
  predicate WellFormed(t: string) {
    |t| % 4 == 0 && forall i :: 0 <= i < |t| - PadLength(t) ==> IsAlphabet(t[i])
  }

  /** The number of bytes that well-formed text carries. */
  function DecodedLength(t: string): int {
    |t| / 4 * 3 - PadLength(t)
  }

  lemma {:induction false} WellFormedTail(t: string)
    requires |t| > 4
    ensures WellFormed(t) <==> AllAlphabet(t[..4]) && WellFormed(t[4..])
  {
    if |t| % 4 != 0 {
      assert |t[4..]| % 4 != 0;
      return;
    }
    TailPadLength(t);
    assert forall i :: 4 <= i < |t| ==> t[i] == t[4..][i - 4];
    if AllAlphabet(t[..4]) && WellFormed(t[4..]) {
      forall i | 0 <= i < |t| - PadLength(t) ensures IsAlphabet(t[i]) {
        if i >= 4 { assert t[i] == t[4..][i - 4]; } else { assert t[i] == t[..4][i]; }
      }
    }
    if WellFormed(t) {
      assert PadLength(t) <= 2;
      forall i | 0 <= i < 4 ensures IsAlphabet(t[..4][i]) { assert t[..4][i] == t[i]; }
    }
  }

  lemma TailPadLength(t: string)
    requires |t| >= 6
    ensures PadLength(t) == PadLength(t[4..])
  {
    var u := t[4..];
    assert t[|t| - 1] == u[|u| - 1] && t[|t| - 2] == u[|u| - 2];
  }

  /**
   * The decoder accepts exactly the well-formed texts, and then yields
   * three bytes per quantum less one per pad character.
   */
  lemma {:induction false} DecodeQuantaAcceptsExactlyWellFormed(t: string)
    ensures DecodeQuanta(t).Some? <==> WellFormed(t)
    ensures DecodeQuanta(t).Some? ==> |DecodeQuanta(t).value| == DecodedLength(t)
    decreases |t|
  {
    if |t| == 0 {
    } else if |t| < 4 {
    } else if |t| == 4 {
      if AllAlphabet(t[..4]) {
        assert forall i :: 0 <= i < 4 ==> t[..4][i] == t[i];
        assert t[4..] == [];
      } else {
        assert !AllAlphabet(t[..4]);
        var j :| 0 <= j < 4 && !IsAlphabet(t[..4][j]);
        assert !IsAlphabet(t[j]);
      }
    } else {
      WellFormedTail(t);
      DecodeQuantaAcceptsExactlyWellFormed(t[4..]);
      if |t| % 4 == 0 { TailPadLength(t); }
      if !AllAlphabet(t[..4]) {
        assert DecodeQuanta(t).None?;
      }
    }
  }

  // ---------------------------------------------------------------------------------
  // Encoding, as the reference the decoder is checked against
  // ---------------------------------------------------------------------------------

  /** The four characters for three bytes. */
  function EncodeTriple(b0: byte, b1: byte, b2: byte): string {
    [ValueChar(b0 as nat / 4), ValueChar((b0 as nat % 4) * 16 + b1 as nat / 16),
     ValueChar((b1 as nat % 16) * 4 + b2 as nat / 64), ValueChar(b2 as nat % 64)]
  }

  /** Standard base64 with padding, as RFC 4648 section 4 defines it. */
  function Encode(b: seq<byte>): (t: string)
    ensures |t| == (|b| + 2) / 3 * 4
    ensures forall i :: 0 <= i < |t| ==> IsAlphabet(t[i]) || t[i] == PadChar
    decreases |b|
  {
    if |b| == 0 then []
    else if |b| == 1 then EncodeTriple(b[0], 0, 0)[..2] + [PadChar, PadChar]
    else if |b| == 2 then EncodeTriple(b[0], b[1], 0)[..3] + [PadChar]
    else EncodeTriple(b[0], b[1], b[2]) + Encode(b[3..])
  }

  lemma QuantumRoundTrip(b0: byte, b1: byte, b2: byte)
    ensures var q := EncodeTriple(b0, b1, b2);
      AllAlphabet(q) &&
      DecodeQuantum(CharValue(q[0]), CharValue(q[1]), CharValue(q[2]), CharValue(q[3])) == [b0, b1, b2]
  {
    var x0, x1, x2 := b0 as nat, b1 as nat, b2 as nat;
    var c0, c1, c2, c3 := x0 / 4, (x0 % 4) * 16 + x1 / 16, (x1 % 16) * 4 + x2 / 64, x2 % 64;
    assert c0 * 4 + c1 / 16 == x0;
    assert (c1 % 16) * 16 + c2 / 4 == x1;
    assert (c2 % 4) * 64 + c3 == x2;
  }

  /** A final quantum carrying one byte, `xx==`. */
  lemma DecodeEncodeOne(b0: byte)
    ensures DecodeQuanta(Encode([b0])) == Some([b0])
  {
    var t := Encode([b0]);
    var q := EncodeTriple(b0, 0, 0);
    QuantumRoundTrip(b0, 0, 0);
    assert t == [q[0], q[1], PadChar, PadChar];
    assert !AllAlphabet(t[..4]) by { assert t[..4][3] == PadChar; }
    var d := DecodeQuantum(CharValue(q[0]), CharValue(q[1]), 0, 0);
    assert d[0] == DecodeQuantum(CharValue(q[0]), CharValue(q[1]), CharValue(q[2]), CharValue(q[3]))[0];
    assert DecodeQuanta(t) == Some(d[..1]);
    assert d[..1] == [b0];
  }

  /** A final quantum carrying two bytes, `xxx=`. */
  lemma DecodeEncodeTwo(b0: byte, b1: byte)
    ensures DecodeQuanta(Encode([b0, b1])) == Some([b0, b1])
  {
    var t := Encode([b0, b1]);
    var q := EncodeTriple(b0, b1, 0);
    QuantumRoundTrip(b0, b1, 0);
    assert t == [q[0], q[1], q[2], PadChar];
    assert !AllAlphabet(t[..4]) by { assert t[..4][3] == PadChar; }
    var d := DecodeQuantum(CharValue(q[0]), CharValue(q[1]), CharValue(q[2]), 0);
    var e := DecodeQuantum(CharValue(q[0]), CharValue(q[1]), CharValue(q[2]), CharValue(q[3]));
    assert d[0] == e[0] && d[1] == e[1];
    assert DecodeQuanta(t) == Some(d[..2]);
    assert d[..2] == [b0, b1];
  }

  /** Decoding undoes encoding, for every byte string. */
  lemma {:induction false} DecodeEncode(b: seq<byte>)
    ensures DecodeQuanta(Encode(b)) == Some(b)
    decreases |b|
  {
    if |b| == 1 {
      DecodeEncodeOne(b[0]);
      assert b == [b[0]];
    } else if |b| == 2 {
      DecodeEncodeTwo(b[0], b[1]);
      assert b == [b[0], b[1]];
    } else if |b| >= 3 {
      var t := Encode(b);
      var q := EncodeTriple(b[0], b[1], b[2]);
      QuantumRoundTrip(b[0], b[1], b[2]);
      DecodeEncode(b[3..]);
      assert t[..4] == q && t[4..] == Encode(b[3..]);
      assert b == [b[0], b[1], b[2]] + b[3..];
    }
  }

  /** Encoded text holds no line breaks, so Go's decoder reads it back unchanged. */
  lemma {:induction false} StripEncoded(b: seq<byte>)
    ensures StripNewlines(Encode(b)) == Encode(b)
  {
    NoNewlinesUnchanged(Encode(b));
  }

  lemma {:induction false} NoNewlinesUnchanged(t: string)
    requires forall i :: 0 <= i < |t| ==> !IsNewline(t[i])
    ensures StripNewlines(t) == t
  {
    if t != [] {
      assert !IsNewline(t[0]);
      NoNewlinesUnchanged(t[1..]);
      assert t == [t[0]] + t[1..];
    }
  }

  /** `DecodeString` inverts RFC 4648 encoding. */
  lemma DecodeStringEncode(b: seq<byte>)
    ensures DecodeString(Encode(b)) == Some(b)
  {
    StripEncoded(b);
    DecodeEncode(b);
  }

  /** A carriage return or line feed inserted anywhere in the input does not change the outcome. */
  lemma {:induction false} NewlinesIgnored(s: string, i: nat, c: char)
    requires i <= |s| && IsNewline(c)
    ensures DecodeString(s[..i] + [c] + s[i..]) == DecodeString(s)
  {
    StripConcat(s[..i], [c] + s[i..]);
    StripConcat([c], s[i..]);
    StripConcat(s[..i], s[i..]);
    assert s[..i] + [c] + s[i..] == s[..i] + ([c] + s[i..]);
    assert StripNewlines([c]) == [] by {
      assert [c][1..] == [];
    }
    assert s[..i] + s[i..] == s;
  }

  lemma {:induction false} StripConcat(a: string, b: string)
    ensures StripNewlines(a + b) == StripNewlines(a) + StripNewlines(b)
  {
    if a != [] {
      StripConcat(a[1..], b);
      assert (a + b)[1..] == a[1..] + b;
      assert (a + b)[0] == a[0];
      if !IsNewline(a[0]) {
        assert StripNewlines(a + b) == [a[0]] + (StripNewlines(a[1..]) + StripNewlines(b));
      }
    } else {
      assert a + b == b;
    }
  }

  /**
   * Go's non-strict decoding: under `xx==` only the top two bits of the second
   * character are used; its low four bits are dropped, not checked to be zero.
   */
  lemma NonZeroTrailingBitsAccepted(c0: char, c1: char)
    requires IsAlphabet(c0) && IsAlphabet(c1)
    ensures DecodeString([c0, c1, PadChar, PadChar]) == Some([(CharValue(c0) * 4 + CharValue(c1) / 16) as byte])
  {
    var t := [c0, c1, PadChar, PadChar];
    NoNewlinesUnchanged(t);
    assert !AllAlphabet(t[..4]) by { assert t[..4][2] == PadChar; }
    var q := DecodeQuantum(CharValue(c0), CharValue(c1), 0, 0);
    assert DecodeQuanta(t) == Some(q[..1]);
    assert q[..1] == [q[0]];
  }

  /**
   * Likewise under `xxx=`: the low two bits of the third character are dropped.
   */
  lemma NonZeroTrailingBitsAcceptedTwo(c0: char, c1: char, c2: char)
    requires IsAlphabet(c0) && IsAlphabet(c1) && IsAlphabet(c2)
    ensures DecodeString([c0, c1, c2, PadChar]) ==
      Some([(CharValue(c0) * 4 + CharValue(c1) / 16) as byte,
            ((CharValue(c1) % 16) * 16 + CharValue(c2) / 4) as byte])
  {
    var t := [c0, c1, c2, PadChar];
    NoNewlinesUnchanged(t);
    assert !AllAlphabet(t[..4]) by { assert t[..4][3] == PadChar; }
    var q := DecodeQuantum(CharValue(c0), CharValue(c1), CharValue(c2), 0);
    assert DecodeQuanta(t) == Some(q[..2]);
    assert q[..2] == [q[0], q[1]];
  }

}

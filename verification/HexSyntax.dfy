/**
 What the extraction of e2e/blackbox_test.go accepts, stated without the decoder: a printed hexadecimal
 string with white space anywhere, and in it one whole DER value.
 */
module HexSyntax {
  import opened Basics
  import opened Signature

  // --- Printed values -----------------------------------------------------------------------------

  /** The byte is the digit of the nibble, in either case. */
  predicate PrintsNibble(b: byte, nibble: int) {
    0 <= nibble < 16
    && (b as int == "0123456789abcdef"[nibble] as int || b as int == "0123456789ABCDEF"[nibble] as int)
  }

  /** Two digits for each byte, the higher nibble first. */
  predicate Prints(digits: Bytes, value: Bytes) {
    && |digits| == 2 * |value|
    && forall i | 0 <= i < |value| ::
         PrintsNibble(digits[2 * i], value[i] as int / 16) && PrintsNibble(digits[2 * i + 1], value[i] as int % 16)
  }

  /** A space, a tab, a line feed or a carriage return. */
  predicate IsBlank(b: byte) {
    b == 32 || b == 9 || b == 10 || b == 13
  }

  /** The text is the digits, with blanks put in anywhere. */
  predicate Spaced(text: Bytes, digits: Bytes)
    decreases |text|
  {
    if text == [] then digits == []
    else
      || (IsBlank(text[0]) && Spaced(text[1..], digits))
      || (digits != [] && text[0] == digits[0] && Spaced(text[1..], digits[1..]))
  }

  /** The text prints the value: digits of either case, blanks anywhere. */
  ghost predicate Writes(text: Bytes, value: Bytes) {
    exists digits :: Prints(digits, value) && Spaced(text, digits)
  }

  // --- One whole value ----------------------------------------------------------------------------

  /** The bytes are one value: a tag octet, a definite length of one octet or of one to four more, and as
      many octets of contents. */
  predicate IsWhole(v: Bytes) {
    |v| >= 2 &&
    match v[1] as int
    case 0x81 => |v| >= 3 && |v| == 3 + v[2] as int
    case 0x82 => |v| >= 4 && |v| == 4 + 0x100 * v[2] as int + v[3] as int
    case 0x83 => |v| >= 5 && |v| == 5 + 0x1_0000 * v[2] as int + 0x100 * v[3] as int + v[4] as int
    case 0x84 => |v| >= 6 && |v| == 6 + 0x100_0000 * v[2] as int + 0x1_0000 * v[3] as int + 0x100 * v[4] as int + v[5] as int
    case n => n < 0x80 && |v| == 2 + n
  }

  // --- Decoding -----------------------------------------------------------------------------------

  lemma NibbleIff(b: byte, nibble: int)
    ensures PrintsNibble(b, nibble) <==> HexDigit(b) == Some(nibble)
  {
    if 0 <= nibble < 16 {
      LettersAre(nibble);
    }
  }

  lemma LettersAre(nibble: int)
    requires 0 <= nibble < 16
    ensures "0123456789abcdef"[nibble] as int == if nibble < 10 then 48 + nibble else 87 + nibble
    ensures "0123456789ABCDEF"[nibble] as int == if nibble < 10 then 48 + nibble else 55 + nibble
  {
    match nibble
    case 0 => case 1 => case 2 => case 3 => case 4 => case 5 => case 6 => case 7 =>
    case 8 => case 9 => case 10 => case 11 => case 12 => case 13 => case 14 => case 15 =>
  }

  /** The digits decode to the value exactly if they print it. */
  lemma {:induction false} DecodeIff(digits: Bytes, value: Bytes)
    ensures HexDecode(digits) == Some(value) <==> Prints(digits, value)
    decreases |digits|
  {
    if |digits| >= 2 && value != [] {
      DecodeIff(digits[2..], value[1..]);
      NibbleIff(digits[0], value[0] as int / 16);
      NibbleIff(digits[1], value[0] as int % 16);
      PrintsFirst(digits, value);
      DecodesFirst(digits, value);
    }
  }

  lemma DecodesFirst(digits: Bytes, value: Bytes)
    requires |digits| >= 2 && value != []
    ensures HexDecode(digits) == Some(value) <==>
              && HexDigit(digits[0]) == Some(value[0] as int / 16) && HexDigit(digits[1]) == Some(value[0] as int % 16)
              && HexDecode(digits[2..]) == Some(value[1..])
  {
    var high, low, rest := HexDigit(digits[0]), HexDigit(digits[1]), HexDecode(digits[2..]);
    if high.Some? && low.Some? && rest.Some? {
      ConsIff((16 * high.value + low.value) as byte, rest.value, value);
      NibblesIff(high.value, low.value, value[0]);
    }
  }

  lemma ConsIff(first: byte, rest: Bytes, value: Bytes)
    requires value != []
    ensures [first] + rest == value <==> first == value[0] && rest == value[1..]
  {
    assert value == [value[0]] + value[1..];
    assert ([first] + rest)[1..] == rest;
  }

  lemma NibblesIff(high: int, low: int, b: byte)
    requires 0 <= high < 16 && 0 <= low < 16
    ensures (16 * high + low) as byte == b <==> high == b as int / 16 && low == b as int % 16
  {
  }

  lemma PrintsFirst(digits: Bytes, value: Bytes)
    requires |digits| >= 2 && value != []
    ensures Prints(digits, value) <==>
              && PrintsNibble(digits[0], value[0] as int / 16) && PrintsNibble(digits[1], value[0] as int % 16)
              && Prints(digits[2..], value[1..])
  {
    var rest, tail := digits[2..], value[1..];
    if |digits| == 2 * |value| {
      forall i | 0 <= i < |tail| ensures rest[2 * i] == digits[2 * (i + 1)] && rest[2 * i + 1] == digits[2 * (i + 1) + 1] && tail[i] == value[i + 1] {
      }
      if Prints(digits, value) {
        assert PrintsNibble(digits[2 * 0], value[0] as int / 16);
        forall i | 0 <= i < |tail|
          ensures PrintsNibble(rest[2 * i], tail[i] as int / 16) && PrintsNibble(rest[2 * i + 1], tail[i] as int % 16)
        {
          assert PrintsNibble(digits[2 * (i + 1)], value[i + 1] as int / 16);
        }
      }
      if PrintsNibble(digits[0], value[0] as int / 16) && PrintsNibble(digits[1], value[0] as int % 16) && Prints(rest, tail) {
        forall i | 0 <= i < |value|
          ensures PrintsNibble(digits[2 * i], value[i] as int / 16) && PrintsNibble(digits[2 * i + 1], value[i] as int % 16)
        {
          if i > 0 { assert PrintsNibble(rest[2 * (i - 1)], tail[i - 1] as int / 16); }
        }
      }
    }
  }

  lemma {:induction false} StripSpaces(text: Bytes)
    ensures Spaced(text, Strip(text))
    decreases |text|
  {
    if text != [] {
      StripSpaces(text[1..]);
      if IsBlank(text[0]) {
        assert Strip(text) == Strip(text[1..]);
      } else {
        assert Strip(text) == [text[0]] + Strip(text[1..]);
        assert Strip(text)[1..] == Strip(text[1..]);
      }
    }
  }

  lemma {:induction false} SpacedIsStripped(text: Bytes, digits: Bytes)
    requires Spaced(text, digits) && forall k | 0 <= k < |digits| :: !IsBlank(digits[k])
    ensures Strip(text) == digits
    decreases |text|
  {
    if text != [] {
      if IsBlank(text[0]) && Spaced(text[1..], digits) {
        SpacedIsStripped(text[1..], digits);
      } else {
        SpacedIsStripped(text[1..], digits[1..]);
        assert digits == [text[0]] + digits[1..];
      }
    }
  }

  lemma PrintedHasNoBlank(digits: Bytes, value: Bytes)
    requires Prints(digits, value)
    ensures forall k | 0 <= k < |digits| :: !IsBlank(digits[k])
  {
    forall k | 0 <= k < |digits| ensures !IsBlank(digits[k]) {
      assert PrintsNibble(digits[2 * (k / 2)], value[k / 2] as int / 16) && PrintsNibble(digits[2 * (k / 2) + 1], value[k / 2] as int % 16);
      NibbleIff(digits[k], if k % 2 == 0 then value[k / 2] as int / 16 else value[k / 2] as int % 16);
    }
  }

  /** A text decodes to a value exactly if it prints it. */
  lemma WritesIff(text: Bytes, value: Bytes)
    ensures HexDecode(Strip(text)) == Some(value) <==> Writes(text, value)
  {
    StripSpaces(text);
    DecodeIff(Strip(text), value);
    if Writes(text, value) {
      var digits :| Prints(digits, value) && Spaced(text, digits);
      PrintedHasNoBlank(digits, value);
      SpacedIsStripped(text, digits);
    }
  }

  // --- The length ----------------------------------------------------------------------------------

  lemma BigEndianIs(o: Bytes)
    requires 1 <= |o| <= 4
    ensures BigEndian(o) == match |o|
                            case 1 => o[0] as int
                            case 2 => 0x100 * o[0] as int + o[1] as int
                            case 3 => 0x1_0000 * o[0] as int + 0x100 * o[1] as int + o[2] as int
                            case _ => 0x100_0000 * o[0] as int + 0x1_0000 * o[1] as int + 0x100 * o[2] as int + o[3] as int
  {
    if |o| > 1 {
      BigEndianIs(o[..|o| - 1]);
    }
  }

  /** The length read at the head of `der` is `total` exactly if the first `total` bytes are one value. */
  lemma TotalIff(der: Bytes, total: nat)
    ensures DerTotal(der) == Some(total) <==> total <= |der| && IsWhole(der[..total])
  {
    if |der| >= 2 && 0x81 <= der[1] <= 0x84 {
      var n := der[1] as int - 0x80;
      if |der| >= 2 + n { BigEndianIs(der[2..2 + n]); }
    }
  }

  // --- Main results ----------------------------------------------------------------------------------

  /** Exactly what is extracted: between angle brackets, a printed value with blanks anywhere, of which `v`
      is the one whole value at its head. */
  lemma ExtractIff(pdf: Bytes, from: nat, to: nat, v: Bytes)
    requires from <= to <= |pdf|
    ensures Extract(pdf, from, to) == Some(v) <==>
              exists text, after :: pdf[from..to] == [60] + text + [62] && Writes(text, v + after) && IsWhole(v)
  {
    if Extract(pdf, from, to) == Some(v) {
      var text, after := ExtractedStands(pdf, from, to, v);
    }
    if text, after :| pdf[from..to] == [60] + text + [62] && Writes(text, v + after) && IsWhole(v) {
      StandingIsExtracted(pdf, from, to, text, v, after);
    }
  }

  lemma ExtractedStands(pdf: Bytes, from: nat, to: nat, v: Bytes) returns (text: Bytes, after: Bytes)
    requires from <= to <= |pdf| && Extract(pdf, from, to) == Some(v)
    ensures pdf[from..to] == [60] + text + [62] && Writes(text, v + after) && IsWhole(v)
  {
    var raw;
    text, raw := ExtractedFrom(pdf, from, to, v);
    WritesIff(text, raw);
    TotalIff(raw, |v|);
    after := raw[|v|..];
    assert raw == v + after;
  }

  /** The text in the brackets, and what it decodes to. */
  lemma ExtractedFrom(pdf: Bytes, from: nat, to: nat, v: Bytes) returns (text: Bytes, raw: Bytes)
    requires from <= to <= |pdf| && Extract(pdf, from, to) == Some(v)
    ensures pdf[from..to] == [60] + text + [62] && HexDecode(Strip(text)) == Some(raw)
    ensures |v| <= |raw| && v == raw[..|v|] && DerTotal(raw) == Some(|v|)
  {
    var gap := pdf[from..to];
    text := gap[1..|gap| - 1];
    raw := HexDecode(Strip(text)).value;
    Framed(gap);
  }

  lemma Framed(gap: Bytes)
    requires |gap| >= 2
    ensures gap == [gap[0]] + gap[1..|gap| - 1] + [gap[|gap| - 1]]
  {
  }

  lemma StandingIsExtracted(pdf: Bytes, from: nat, to: nat, text: Bytes, v: Bytes, after: Bytes)
    requires from <= to <= |pdf| && pdf[from..to] == [60] + text + [62] && Writes(text, v + after) && IsWhole(v)
    ensures Extract(pdf, from, to) == Some(v)
  {
    var gap := pdf[from..to];
    assert gap[1..|gap| - 1] == text;
    WritesIff(text, v + after);
    assert (v + after)[..|v|] == v;
    TotalIff(v + after, |v|);
  }

  /** The round trip: one whole value, any bytes after it, printed between angle brackets with blanks
      anywhere and each digit in either case, is extracted exactly, wherever the gap lies. */
  lemma ExtractRoundTrip(pdf: Bytes, from: nat, to: nat, text: Bytes, v: Bytes, after: Bytes)
    requires from <= to <= |pdf| && pdf[from..to] == [60] + text + [62]
    requires IsWhole(v) && Writes(text, v + after)
    ensures Extract(pdf, from, to) == Some(v)
  {
    StandingIsExtracted(pdf, from, to, text, v, after);
  }

  /** What is extracted does not depend on blanks: one more may be put in anywhere. */
  lemma {:induction false} InsertBlank(a: Bytes, blank: byte, b: Bytes, digits: Bytes)
    requires IsBlank(blank) && Spaced(a + b, digits)
    ensures Spaced(a + [blank] + b, digits)
    decreases |a|
  {
    var text := a + [blank] + b;
    if a == [] {
      assert a + b == b && text[1..] == b;
    } else {
      assert text[1..] == a[1..] + [blank] + b && (a + b)[1..] == a[1..] + b && text[0] == (a + b)[0] == a[0];
      if IsBlank(a[0]) && Spaced(a[1..] + b, digits) {
        InsertBlank(a[1..], blank, b, digits);
      } else {
        InsertBlank(a[1..], blank, b, digits[1..]);
      }
    }
  }

  /** Every value with a definite length of at most four octets is one whole value. */
  lemma EncodedIsWhole(tag: byte, form: LengthForm, content: Bytes)
    requires Fits(form, |content|)
    ensures IsWhole(Encode(tag, form, content))
  {
    var v := Encode(tag, form, content);
    DerRoundTrip(tag, form, content, []);
    assert v + [] == v && v[..|v|] == v;
    TotalIff(v, |v|);
  }
}

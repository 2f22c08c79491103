/**
 Reading a detached signature out of a signed PDF (e2e/blackbox_test.go): the ByteRange array of
 ISO 32000-1 section 12.8.1, the hexadecimal string in its gap (section 7.3.4.3), and the DER
 definite length of the CMS value in it (ITU-T X.690 section 8.1.3).
 */
module Signature {
  import opened Basics

  const SPACE: byte := 32
  const TAB: byte := 9
  const LF: byte := 10
  const FF: byte := 12
  const CR: byte := 13
  const OPEN: byte := 60      // <
  const CLOSE: byte := 62     // >
  const LBRACKET: byte := 91
  const RBRACKET: byte := 93

  /** "/ByteRange" */
  const KEYWORD: Bytes := [47, 66, 121, 116, 101, 82, 97, 110, 103, 101]

  const MAX_INT := 0x7fff_ffff_ffff_ffff

  // --- The ByteRange pattern ----------------------------------------------------------

  /** The pattern's `\s`. */
  predicate IsSpace(b: byte) {
    b == SPACE || b == TAB || b == LF || b == FF || b == CR
  }

  predicate IsDigit(b: byte) {
    48 <= b <= 57
  }

  function SkipSpaces(pdf: Bytes, i: nat): (j: nat)
    requires i <= |pdf|
    ensures i <= j <= |pdf|
    decreases |pdf| - i
  {
    if i < |pdf| && IsSpace(pdf[i]) then SkipSpaces(pdf, i + 1) else i
  }

  function SkipDigits(pdf: Bytes, i: nat): (j: nat)
    requires i <= |pdf|
    ensures i <= j <= |pdf| && forall k | i <= k < j :: IsDigit(pdf[k])
    decreases |pdf| - i
  {
    if i < |pdf| && IsDigit(pdf[i]) then SkipDigits(pdf, i + 1) else i
  }

  /** `n` digit groups with spaces between, then optional spaces and the closing bracket. The byte
      classes are disjoint, so the greedy reading is the only one. */
  function Groups(pdf: Bytes, i: nat, n: nat): Option<seq<Bytes>>
    requires i <= |pdf| && n > 0
    decreases n
  {
    var e := SkipDigits(pdf, i);
    var k := SkipSpaces(pdf, e);
    if e == i then None
    else if n == 1 then
      if k < |pdf| && pdf[k] == RBRACKET then Some([pdf[i..e]]) else None
    else if k == e then None
    else match Groups(pdf, k, n - 1)
      case None => None
      case Some(rest) => Some([pdf[i..e]] + rest)
  }

  function MatchAt(pdf: Bytes, i: nat): Option<seq<Bytes>>
    requires i <= |pdf|
  {
    if KeywordAt(pdf, i) then Bracketed(pdf, SkipSpaces(pdf, i + |KEYWORD|)) else None
  }

  predicate KeywordAt(pdf: Bytes, i: nat) {
    i + |KEYWORD| <= |pdf| && pdf[i..i + |KEYWORD|] == KEYWORD
  }

  function Bracketed(pdf: Bytes, j: nat): Option<seq<Bytes>>
    requires j <= |pdf|
  {
    if j == |pdf| || pdf[j] != LBRACKET then None else Groups(pdf, SkipSpaces(pdf, j + 1), 4)
  }

  /** The four digit groups of the leftmost match at or after `i`. */
  function FindFrom(pdf: Bytes, i: nat): Option<seq<Bytes>>
    requires i <= |pdf|
    decreases |pdf| - i
  {
    if MatchAt(pdf, i).Some? then MatchAt(pdf, i)
    else if i == |pdf| then None
    else FindFrom(pdf, i + 1)
  }

  function Decimal(digits: Bytes): nat {
    if digits == [] then 0
    else
      var d := digits[|digits| - 1] as int - 48;
      10 * Decimal(digits[..|digits| - 1]) + (if d >= 0 then d else 0)
  }

  /** `strconv.Atoi` on a run of digits: out of range is an error. */
  function Atoi(digits: Bytes): Option<int> {
    if Decimal(digits) > MAX_INT then None else Some(Decimal(digits))
  }

  datatype RangeError = NoByteRange | BadComponent | NotFullCover

  datatype ByteRange = ByteRange(a: int, b: int, c: int, d: int)

  predicate Covers(r: ByteRange, size: nat) {
    r.a == 0 && 0 <= r.b && 0 <= r.c && 0 <= r.d && r.a + r.b <= r.c && r.c <= size && r.d == size - r.c
  }

  lemma {:induction false} GroupsCount(pdf: Bytes, i: nat, n: nat)
    requires i <= |pdf| && n > 0
    ensures Groups(pdf, i, n).Some? ==> |Groups(pdf, i, n).value| == n
    decreases n
  {
    if n > 1 {
      GroupsCount(pdf, SkipSpaces(pdf, SkipDigits(pdf, i)), n - 1);
    }
  }

  lemma {:induction false} FindCount(pdf: Bytes, i: nat)
    requires i <= |pdf|
    ensures FindFrom(pdf, i).Some? ==> |FindFrom(pdf, i).value| == 4
    decreases |pdf| - i
  {
    if MatchAt(pdf, i).Some? {
      var j := SkipSpaces(pdf, i + |KEYWORD|);
      GroupsCount(pdf, SkipSpaces(pdf, j + 1), 4);
    } else if i < |pdf| {
      FindCount(pdf, i + 1);
    }
  }

  predicate AllRead(g: seq<Bytes>) {
    forall k | 0 <= k < |g| :: Atoi(g[k]).Some?
  }

  /** The range the four digit groups spell, if it covers a file of that size. */
  function Judge(g: seq<Bytes>, size: nat): Result<ByteRange, RangeError>
    requires |g| == 4
  {
    if !AllRead(g) then Err(BadComponent)
    else
      var r := ByteRange(Atoi(g[0]).value, Atoi(g[1]).value, Atoi(g[2]).value, Atoi(g[3]).value);
      if Covers(r, size) then Ok(r) else Err(NotFullCover)
  }

  lemma JudgeParts(g: seq<Bytes>, size: nat, r: ByteRange)
    requires |g| == 4
    requires Atoi(g[0]) == Some(r.a) && Atoi(g[1]) == Some(r.b) && Atoi(g[2]) == Some(r.c) && Atoi(g[3]) == Some(r.d)
    ensures Judge(g, size) == if Covers(r, size) then Ok(r) else Err(NotFullCover)
  {
  }

  /** `parseByteRange`. */
  function Parse(pdf: Bytes): Result<ByteRange, RangeError> {
    FindCount(pdf, 0);
    match FindFrom(pdf, 0)
    case None => Err(NoByteRange)
    case Some(groups) => Judge(groups, |pdf|)
  }

  /** The loop of `parseByteRange`: the components fill an array, up to the first that is out of range. */
  method Components(groups: seq<Bytes>) returns (parts: array<int>, good: bool)
    requires |groups| == 4
    ensures parts.Length == 4
    ensures good <==> AllRead(groups)
    ensures good ==> forall k | 0 <= k < 4 :: Atoi(groups[k]) == Some(parts[k])
  {
    parts := new int[4];
    for i := 0 to 4
      invariant forall k | 0 <= k < i :: Atoi(groups[k]) == Some(parts[k])
    {
      var value := Atoi(groups[i]);
      if value.None? {
        return parts, false;
      }
      parts[i] := value.value;
    }
    good := true;
  }

  /** The checks after the loop. */
  method Check(groups: seq<Bytes>, size: nat) returns (range: Result<ByteRange, RangeError>)
    requires |groups| == 4
    ensures range == Judge(groups, size)
  {
    var parts, good := Components(groups);
    if !good {
      return Err(BadComponent);
    }
    var a, b, c, d := parts[0], parts[1], parts[2], parts[3];
    var r := ByteRange(a, b, c, d);
    JudgeParts(groups, size, r);
    if a != 0 || b < 0 || c < 0 || d < 0 || a + b > c || c > size || d != size - c {
      return Err(NotFullCover);
    }
    return Ok(r);
  }

  /** `parseByteRange`. */
  method ParseByteRange(pdf: Bytes) returns (range: Result<ByteRange, RangeError>)
    ensures range == Parse(pdf)
  {
    FindCount(pdf, 0);
    var matches := FindFrom(pdf, 0);
    if matches.None? {
      return Err(NoByteRange);
    }
    range := Check(matches.value, |pdf|);
  }

  /** The bytes the signature covers, and the gap between them. */
  function First(pdf: Bytes, r: ByteRange): Bytes
    requires Covers(r, |pdf|)
  {
    pdf[r.a..r.a + r.b]
  }

  function Gap(pdf: Bytes, r: ByteRange): Bytes
    requires Covers(r, |pdf|)
  {
    pdf[r.a + r.b..r.c]
  }

  function Second(pdf: Bytes, r: ByteRange): Bytes
    requires Covers(r, |pdf|)
  {
    pdf[r.c..r.c + r.d]
  }

  predicate InFirst(r: ByteRange, i: int) {
    r.a <= i < r.a + r.b
  }

  predicate InGap(r: ByteRange, i: int) {
    r.a + r.b <= i < r.c
  }

  predicate InSecond(r: ByteRange, i: int) {
    r.c <= i < r.c + r.d
  }

  predicate InSpans(r: ByteRange, i: int) {
    InFirst(r, i) || InSecond(r, i)
  }

  /** An accepted range partitions the PDF: the two spans are in bounds and disjoint, and with the gap
      between them they are the whole of it. */
  lemma RangePartitions(pdf: Bytes)
    requires Parse(pdf).Ok?
    ensures var r := Parse(pdf).value;
            && Covers(r, |pdf|)
            && pdf == First(pdf, r) + Gap(pdf, r) + Second(pdf, r)
            && (forall i :: 0 <= i < |pdf| <==> InFirst(r, i) || InGap(r, i) || InSecond(r, i))
            && (forall i :: !(InFirst(r, i) && InGap(r, i)) && !(InGap(r, i) && InSecond(r, i)) && !(InFirst(r, i) && InSecond(r, i)))
  {
    CoverPartitions(pdf, Parse(pdf).value);
  }

  lemma CoverPartitions(pdf: Bytes, r: ByteRange)
    requires Covers(r, |pdf|)
    ensures pdf == First(pdf, r) + Gap(pdf, r) + Second(pdf, r)
  {
    assert First(pdf, r) + Gap(pdf, r) == pdf[..r.c];
    assert Second(pdf, r) == pdf[r.c..];
  }

  // --- Tampering -----------------------------------------------------------------------

  /** The same bytes, up to which white space stands where. */
  ghost predicate SameButSpaces(p: Bytes, q: Bytes) {
    |p| == |q| && forall i | 0 <= i < |p| :: p[i] == q[i] || (IsSpace(p[i]) && IsSpace(q[i]))
  }

  lemma {:induction false} SkipSpacesSame(p: Bytes, q: Bytes, i: nat)
    requires SameButSpaces(p, q) && i <= |p|
    ensures SkipSpaces(p, i) == SkipSpaces(q, i)
    decreases |p| - i
  {
    if i < |p| && IsSpace(p[i]) { SkipSpacesSame(p, q, i + 1); }
  }

  lemma {:induction false} SkipDigitsSame(p: Bytes, q: Bytes, i: nat)
    requires SameButSpaces(p, q) && i <= |p|
    ensures SkipDigits(p, i) == SkipDigits(q, i) && p[i..SkipDigits(p, i)] == q[i..SkipDigits(q, i)]
    decreases |p| - i
  {
    if i < |p| && IsDigit(p[i]) { SkipDigitsSame(p, q, i + 1); }
  }

  lemma {:induction false} GroupsSame(p: Bytes, q: Bytes, i: nat, n: nat)
    requires SameButSpaces(p, q) && i <= |p| && n > 0
    ensures Groups(p, i, n) == Groups(q, i, n)
    decreases n
  {
    SkipDigitsSame(p, q, i);
    var e := SkipDigits(p, i);
    SkipSpacesSame(p, q, e);
    if n > 1 { GroupsSame(p, q, SkipSpaces(p, e), n - 1); }
  }

  lemma MatchSame(p: Bytes, q: Bytes, i: nat)
    requires SameButSpaces(p, q) && i <= |p|
    ensures MatchAt(p, i) == MatchAt(q, i)
  {
    KeywordSame(p, q, i);
    KeywordSame(q, p, i);
    if KeywordAt(p, i) {
      SkipSpacesSame(p, q, i + |KEYWORD|);
      BracketedSame(p, q, SkipSpaces(p, i + |KEYWORD|));
    }
  }

  lemma BracketedSame(p: Bytes, q: Bytes, j: nat)
    requires SameButSpaces(p, q) && j <= |p|
    ensures Bracketed(p, j) == Bracketed(q, j)
  {
    if j < |p| && (p[j] == LBRACKET || q[j] == LBRACKET) {
      SkipSpacesSame(p, q, j + 1);
      GroupsSame(p, q, SkipSpaces(p, j + 1), 4);
    }
  }

  lemma KeywordSame(p: Bytes, q: Bytes, i: nat)
    requires SameButSpaces(p, q)
    ensures KeywordAt(p, i) ==> KeywordAt(q, i)
  {
    if KeywordAt(p, i) {
      forall k | 0 <= k < |KEYWORD| ensures q[i + k] == KEYWORD[k] {
        assert p[i + k] == p[i..i + |KEYWORD|][k] == KEYWORD[k];
        assert !IsSpace(KEYWORD[k]);
      }
    }
  }

  lemma {:induction false} FindSame(p: Bytes, q: Bytes, i: nat)
    requires SameButSpaces(p, q) && i <= |p|
    ensures FindFrom(p, i) == FindFrom(q, i)
    decreases |p| - i
  {
    MatchSame(p, q, i);
    if i < |p| { FindSame(p, q, i + 1); }
  }

  /** `i` is the first place in a signed span, first span first, that holds a space. */
  ghost predicate FirstSpace(pdf: Bytes, r: ByteRange, i: int) {
    && 0 <= i < |pdf| && InSpans(r, i) && pdf[i] == 32
    && forall k | 0 <= k < i && InSpans(r, k) :: pdf[k] != 32
  }

  predicate NoSpaceIn(pdf: Bytes, from: int, to: int) {
    forall k | 0 <= k < |pdf| && from <= k < to :: pdf[k] != SPACE
  }

  /** The inner loop of `tamperSignedWhitespace`: the first space of the span, if any, becomes a line
      feed. */
  method TamperSpan(buffer: array<byte>, from: int, to: int) returns (at: Option<int>)
    requires 0 <= from <= to <= buffer.Length
    modifies buffer
    ensures match at
            case None => buffer[..] == old(buffer[..]) && NoSpaceIn(old(buffer[..]), from, to)
            case Some(i) =>
              && from <= i < to && old(buffer[i]) == SPACE && NoSpaceIn(old(buffer[..]), from, i)
              && buffer[..] == old(buffer[..])[i := LF]
  {
    for i := from to to
      invariant buffer[..] == old(buffer[..])
      invariant NoSpaceIn(old(buffer[..]), from, i)
    {
      if buffer[i] == SPACE {
        buffer[i] := LF;
        return Some(i);
      }
    }
    return None;
  }

  lemma SpaceInSpan(pdf: Bytes, r: ByteRange, i: int)
    requires Covers(r, |pdf|) && 0 <= i < |pdf| && pdf[i] == SPACE
    requires (InFirst(r, i) && NoSpaceIn(pdf, r.a, i)) || (InSecond(r, i) && NoSpaceIn(pdf, r.a, r.a + r.b) && NoSpaceIn(pdf, r.c, i))
    ensures FirstSpace(pdf, r, i)
  {
  }

  /** The two loops of `tamperSignedWhitespace`, first span first. */
  method TamperIn(pdf: Bytes, r: ByteRange) returns (tampered: Option<Bytes>)
    requires Covers(r, |pdf|)
    ensures tampered.Some? <==> exists i :: FirstSpace(pdf, r, i)
    ensures tampered.Some? ==> exists i :: FirstSpace(pdf, r, i) && tampered.value == pdf[i := 10]
  {
    var buffer := new byte[|pdf|](i requires 0 <= i < |pdf| => pdf[i]);
    var spans := [(r.a, r.a + r.b), (r.c, r.c + r.d)];
    assert buffer[..] == pdf;
    for s := 0 to 2
      invariant buffer[..] == pdf
      invariant s >= 1 ==> NoSpaceIn(pdf, r.a, r.a + r.b)
      invariant s >= 2 ==> NoSpaceIn(pdf, r.c, r.c + r.d)
    {
      var at := TamperSpan(buffer, spans[s].0, spans[s].1);
      if at.Some? {
        SpaceInSpan(pdf, r, at.value);
        return Some(buffer[..]);
      }
    }
    return None;
  }

  /** `tamperSignedWhitespace`: the first space in a signed span becomes a line feed; without a range
      or without such a space there is nothing to tamper with. */
  method Tamper(pdf: Bytes) returns (tampered: Option<Bytes>)
    ensures tampered.Some? <==> Parse(pdf).Ok? && exists i :: FirstSpace(pdf, Parse(pdf).value, i)
    ensures tampered.Some? ==>
              exists i :: FirstSpace(pdf, Parse(pdf).value, i) && tampered.value == pdf[i := 10]
  {
    var range := ParseByteRange(pdf);
    if range.Err? {
      return None;
    }
    OkCovers(pdf);
    tampered := TamperIn(pdf, range.value);
  }

  lemma OkCovers(pdf: Bytes)
    ensures Parse(pdf).Ok? ==> Covers(Parse(pdf).value, |pdf|)
  {
  }

  /** Tampering keeps the length, the range and the gap, and changes exactly one byte, inside a signed
      span: what is extracted is the old signature over different bytes. */
  lemma TamperingIsDetectable(pdf: Bytes, r: ByteRange, i: int)
    requires Parse(pdf) == Ok(r) && FirstSpace(pdf, r, i)
    ensures Covers(r, |pdf|)
    ensures var q := pdf[i := 10];
            && |q| == |pdf| && Parse(q) == Ok(r)
            && Gap(q, r) == Gap(pdf, r)
            && First(q, r) + Second(q, r) != First(pdf, r) + Second(pdf, r)
            && (forall k | 0 <= k < |pdf| :: q[k] != pdf[k] <==> k == i)
            && Extract(q, r.a + r.b, r.c) == Extract(pdf, r.a + r.b, r.c)
  {
    OkCovers(pdf);
    TamperedSame(pdf, i);
    ParseSame(pdf, pdf[i := 10]);
    TamperedAt(pdf, r, i);
  }

  lemma TamperedSame(pdf: Bytes, i: int)
    requires 0 <= i < |pdf| && pdf[i] == 32
    ensures SameButSpaces(pdf, pdf[i := 10])
  {
  }

  lemma TamperedAt(pdf: Bytes, r: ByteRange, i: int)
    requires Covers(r, |pdf|) && FirstSpace(pdf, r, i)
    ensures var q := pdf[i := 10];
            && |q| == |pdf| && Gap(q, r) == Gap(pdf, r)
            && First(q, r) + Second(q, r) != First(pdf, r) + Second(pdf, r)
            && (forall k | 0 <= k < |pdf| :: q[k] != pdf[k] <==> k == i)
            && Extract(q, r.a + r.b, r.c) == Extract(pdf, r.a + r.b, r.c)
  {
    GapAndSpans(pdf, r, i);
    ExtractSame(pdf, pdf[i := 10], r.a + r.b, r.c);
  }

  /** Which white space stands where does not matter to the range. */
  lemma ParseSame(p: Bytes, q: Bytes)
    requires SameButSpaces(p, q)
    ensures Parse(p) == Parse(q)
  {
    FindSame(p, q, 0);
  }

  lemma ExtractSame(p: Bytes, q: Bytes, from: nat, to: nat)
    requires from <= to <= |p| && to <= |q| && p[from..to] == q[from..to]
    ensures Extract(p, from, to) == Extract(q, from, to)
  {
  }

  lemma GapAndSpans(pdf: Bytes, r: ByteRange, i: int)
    requires Covers(r, |pdf|) && FirstSpace(pdf, r, i)
    ensures Gap(pdf[i := 10], r) == Gap(pdf, r)
    ensures First(pdf[i := 10], r) + Second(pdf[i := 10], r) != First(pdf, r) + Second(pdf, r)
  {
    var q := pdf[i := 10];
    assert Gap(q, r) == Gap(pdf, r);
    var k := if InFirst(r, i) then i - r.a else r.b + (i - r.c);
    assert (First(q, r) + Second(q, r))[k] == q[i];
    assert (First(pdf, r) + Second(pdf, r))[k] == pdf[i];
  }

  // --- The hexadecimal string -------------------------------------------------------------

  /** The white space the extraction drops; unlike the pattern's, without form feed. */
  predicate IsDropped(b: byte) {
    b == SPACE || b == LF || b == CR || b == TAB
  }

  function Strip(text: Bytes): Bytes {
    if text == [] then []
    else (if IsDropped(text[0]) then [] else [text[0]]) + Strip(text[1..])
  }

  function HexDigit(b: byte): Option<int> {
    if 48 <= b <= 57 then Some(b as int - 48)
    else if 97 <= b <= 102 then Some(b as int - 87)
    else if 65 <= b <= 70 then Some(b as int - 55)
    else None
  }

  /** `hex.DecodeString`. */
  function HexDecode(text: Bytes): Option<Bytes> {
    if text == [] then Some([])
    else if |text| == 1 || HexDigit(text[0]).None? || HexDigit(text[1]).None? then None
    else match HexDecode(text[2..])
      case None => None
      case Some(rest) => Some([(16 * HexDigit(text[0]).value + HexDigit(text[1]).value) as byte] + rest)
  }

  lemma {:induction false} StripConcat(a: Bytes, b: Bytes)
    ensures Strip(a + b) == Strip(a) + Strip(b)
  {
    if a == [] {
      assert a + b == b;
    } else {
      var head: Bytes := if IsDropped(a[0]) then [] else [a[0]];
      StripConcat(a[1..], b);
      assert (a + b)[1..] == a[1..] + b && (a + b)[0] == a[0];
      assert Strip(a + b) == head + Strip(a[1..] + b);
      assert Strip(a) == head + Strip(a[1..]);
    }
  }

  // --- The DER length -----------------------------------------------------------------------

  function BigEndian(octets: Bytes): nat {
    if octets == [] then 0 else 256 * BigEndian(octets[..|octets| - 1]) + octets[|octets| - 1] as int
  }

  /** The total length of the DER value at the head of `der`. */
  function DerTotal(der: Bytes): Option<nat> {
    if |der| < 2 then None
    else if der[1] < 0x80 then
      var total := 2 + der[1] as int;
      if total > |der| then None else Some(total)
    else
      var n := der[1] as int - 0x80;
      if n == 0 || n > 4 || |der| < 2 + n then None
      else
        var total := 2 + n + BigEndian(der[2..2 + n]);
        if total > |der| then None else Some(total)
  }

  /** `derLength`: the length octets are folded from the left. */
  method DerLength(der: Bytes) returns (total: Option<nat>)
    ensures total == DerTotal(der)
  {
    if |der| < 2 {
      return None;
    }
    var lengthByte := der[1];
    if lengthByte < 0x80 {
      var short := 2 + lengthByte as int;
      return if short > |der| then None else Some(short);
    }
    var lengthBytes := lengthByte as int % 0x80;
    if lengthBytes == 0 || lengthBytes > 4 || |der| < 2 + lengthBytes {
      return None;
    }
    var contentLength := 0;
    var octets := der[2..2 + lengthBytes];
    for i := 0 to lengthBytes
      invariant contentLength == BigEndian(octets[..i])
    {
      assert octets[..i + 1][..i] == octets[..i];
      contentLength := contentLength * 256 + octets[i] as int;
    }
    assert octets[..lengthBytes] == octets;
    var long := 2 + lengthBytes + contentLength;
    return if long > |der| then None else Some(long);
  }

  /** `extractSignatureContents` on the gap `pdf[from..to]`. */
  function Extract(pdf: Bytes, from: nat, to: nat): Option<Bytes>
    requires from <= to <= |pdf|
  {
    var gap := pdf[from..to];
    if |gap| < 2 || gap[0] != OPEN || gap[|gap| - 1] != CLOSE then None
    else match HexDecode(Strip(gap[1..|gap| - 1]))
      case None => None
      case Some(raw) =>
        match DerTotal(raw)
        case None => None
        case Some(total) => if total <= |raw| then Some(raw[..total]) else None
  }

  /** The length octets of a value: one short octet, or `n` octets of long form. */
  datatype LengthForm = Short | Long(n: nat)

  predicate Fits(form: LengthForm, size: nat) {
    match form
    case Short => size < 0x80
    case Long(n) => 1 <= n <= 4 && size < Power256(n)
  }

  function Power256(n: nat): nat {
    if n == 0 then 1 else 256 * Power256(n - 1)
  }

  function Octets(size: nat, n: nat): (o: Bytes)
    ensures |o| == n
  {
    if n == 0 then [] else Octets(size / 256, n - 1) + [(size % 256) as byte]
  }

  /** The DER value with a one-byte tag; a length form longer than needed is allowed. */
  function Encode(tag: byte, form: LengthForm, content: Bytes): Bytes
    requires Fits(form, |content|)
  {
    match form
    case Short => [tag, |content| as byte] + content
    case Long(n) => [tag, (0x80 + n) as byte] + Octets(|content|, n) + content
  }

  lemma {:induction false} OctetsRoundTrip(size: nat, n: nat)
    requires size < Power256(n)
    ensures BigEndian(Octets(size, n)) == size
    decreases n
  {
    if n > 0 {
      OctetsRoundTrip(size / 256, n - 1);
      assert Octets(size, n)[..n - 1] == Octets(size / 256, n - 1);
    }
  }

  lemma LongTotal(der: Bytes, octets: Bytes, size: nat)
    requires 1 <= |octets| <= 4 && 2 + |octets| + size <= |der|
    requires der[1] as int == 0x80 + |octets| && der[2..2 + |octets|] == octets && BigEndian(octets) == size
    ensures DerTotal(der) == Some(2 + |octets| + size)
  {
  }

  /** The length read from a value, whatever follows it, is the value's own. */
  lemma DerRoundTrip(tag: byte, form: LengthForm, content: Bytes, after: Bytes)
    requires Fits(form, |content|)
    ensures DerTotal(Encode(tag, form, content) + after) == Some(|Encode(tag, form, content)|)
  {
    match form
    case Short =>
      assert (Encode(tag, form, content) + after)[1] == |content| as byte;
    case Long(n) =>
      var octets := Octets(|content|, n);
      OctetsRoundTrip(|content|, n);
      var der := Encode(tag, form, content) + after;
      assert der[1] == (0x80 + n) as byte;
      assert der[2..2 + n] == octets;
      LongTotal(der, octets, |content|);
  }

  /** Whatever is extracted is a whole value: it has a tag and a definite length of at most four
      octets, and its length is the one it states. */
  lemma ExtractedIsWhole(pdf: Bytes, from: nat, to: nat)
    requires from <= to <= |pdf| && Extract(pdf, from, to).Some?
    ensures var v := Extract(pdf, from, to).value;
            |v| >= 2 && DerTotal(v) == Some(|v|)
  {
    var gap := pdf[from..to];
    var raw := HexDecode(Strip(gap[1..|gap| - 1])).value;
    var v := Extract(pdf, from, to).value;
    if raw[1] >= 0x80 {
      var n := raw[1] as int - 0x80;
      assert v[2..2 + n] == raw[2..2 + n];
    }
  }
}

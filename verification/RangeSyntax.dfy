/**
 Which texts the ByteRange pattern of e2e/blackbox_test.go accepts, stated without the matcher, and the
 read-back of a printed range.
 */
module RangeSyntax {
  import opened Basics
  import opened Signature

  /** The bytes of an ASCII text. */
  function Ascii(text: string): Bytes
    requires forall k | 0 <= k < |text| :: text[k] as int < 128
  {
    seq(|text|, k requires 0 <= k < |text| => text[k] as int as byte)
  }

  /** Tabs, line feeds, form feeds, carriage returns and spaces. */
  predicate AllSpaces(s: Bytes) {
    forall k | 0 <= k < |s| :: s[k] == 9 || s[k] == 10 || s[k] == 12 || s[k] == 13 || s[k] == 32
  }

  predicate AllDigits(s: Bytes) {
    |s| > 0 && forall k | 0 <= k < |s| :: '0' as int <= s[k] as int <= '9' as int
  }

  lemma KeywordIs()
    ensures Ascii("/ByteRange") == KEYWORD
  {
  }

  /** Groups of digits with white space after each, at least one byte of it between two groups, and the
      closing bracket. */
  datatype Groups = Groups(digits: Bytes, spaces: Bytes, more: Option<Groups>) {
    predicate Written() {
      && AllDigits(digits) && AllSpaces(spaces)
      && (more.Some? ==> |spaces| > 0 && more.value.Written())
    }

    function Count(): nat {
      if more.None? then 1 else 1 + more.value.Count()
    }

    function Text(): Bytes {
      digits + spaces + (if more.None? then Ascii("]") else more.value.Text())
    }

    function All(): seq<Bytes> {
      [digits] + (if more.None? then [] else more.value.All())
    }
  }

  /** The key, white space, the opening bracket, white space, and four groups. */
  datatype Range = Range(afterKey: Bytes, afterBracket: Bytes, groups: Groups) {
    predicate Written() {
      AllSpaces(afterKey) && AllSpaces(afterBracket) && groups.Written() && groups.Count() == 4
    }

    function Text(): Bytes {
      Ascii("/ByteRange") + afterKey + Ascii("[") + afterBracket + groups.Text()
    }
  }

  predicate StandsAt(pdf: Bytes, i: nat, text: Bytes) {
    i + |text| <= |pdf| && pdf[i..i + |text|] == text
  }

  lemma StandsParts(pdf: Bytes, i: nat, a: Bytes, b: Bytes)
    ensures StandsAt(pdf, i, a + b) <==> StandsAt(pdf, i, a) && StandsAt(pdf, i + |a|, b)
  {
    if StandsAt(pdf, i, a + b) {
      assert pdf[i..i + |a|] == (a + b)[..|a|] == a;
      assert pdf[i + |a|..i + |a| + |b|] == (a + b)[|a|..] == b;
    }
    if StandsAt(pdf, i, a) && StandsAt(pdf, i + |a|, b) {
      assert pdf[i..i + |a| + |b|] == pdf[i..i + |a|] + pdf[i + |a|..i + |a| + |b|];
    }
  }

  lemma StandsThree(pdf: Bytes, i: nat, a: Bytes, b: Bytes, c: Bytes)
    ensures StandsAt(pdf, i, a + (b + c)) <==> StandsAt(pdf, i, a) && StandsAt(pdf, i + |a|, b) && StandsAt(pdf, i + |a| + |b|, c)
  {
    StandsParts(pdf, i, a, b + c);
    StandsParts(pdf, i + |a|, b, c);
  }

  // --- Where the two runs of bytes end -------------------------------------------------------

  lemma {:induction false} SpacesEnd(pdf: Bytes, i: nat, e: nat)
    requires i <= e <= |pdf| && (forall k | i <= k < e :: IsSpace(pdf[k])) && (e == |pdf| || !IsSpace(pdf[e]))
    ensures SkipSpaces(pdf, i) == e
    decreases e - i
  {
    if i < e { SpacesEnd(pdf, i + 1, e); }
  }

  lemma {:induction false} DigitsEnd(pdf: Bytes, i: nat, e: nat)
    requires i <= e <= |pdf| && (forall k | i <= k < e :: IsDigit(pdf[k])) && (e == |pdf| || !IsDigit(pdf[e]))
    ensures SkipDigits(pdf, i) == e
    decreases e - i
  {
    if i < e { DigitsEnd(pdf, i + 1, e); }
  }

  lemma {:induction false} SkippedAreSpaces(pdf: Bytes, i: nat)
    requires i <= |pdf|
    ensures AllSpaces(pdf[i..SkipSpaces(pdf, i)])
    decreases |pdf| - i
  {
    if i < |pdf| && IsSpace(pdf[i]) {
      SkippedAreSpaces(pdf, i + 1);
      assert pdf[i..SkipSpaces(pdf, i)] == [pdf[i]] + pdf[i + 1..SkipSpaces(pdf, i + 1)];
    }
  }

  // --- The groups ------------------------------------------------------------------------------

  lemma TextStarts(g: Groups)
    requires g.Written()
    ensures |g.Text()| > 0 && IsDigit(g.Text()[0])
  {
  }

  /** One step of the matcher, once it is known where the digits and the white space end. */
  lemma GroupsStep(pdf: Bytes, i: nat, n: nat, e: nat, k: nat)
    requires i < e <= k <= |pdf| && n > 0 && SkipDigits(pdf, i) == e && SkipSpaces(pdf, e) == k
    ensures n == 1 ==> Signature.Groups(pdf, i, n) == if k < |pdf| && pdf[k] == RBRACKET then Some([pdf[i..e]]) else None
    ensures n > 1 && e < k && Signature.Groups(pdf, k, n - 1).Some? ==>
              Signature.Groups(pdf, i, n) == Some([pdf[i..e]] + Signature.Groups(pdf, k, n - 1).value)
  {
  }

  /** What follows the white space of a group. */
  function Rest(g: Groups): Bytes {
    if g.more.None? then Ascii("]") else g.more.value.Text()
  }

  lemma GroupText(g: Groups)
    ensures g.Text() == g.digits + (g.spaces + Rest(g))
  {
  }

  lemma GroupStands(pdf: Bytes, i: nat, g: Groups)
    ensures StandsAt(pdf, i, g.Text()) <==>
              StandsAt(pdf, i, g.digits) && StandsAt(pdf, i + |g.digits|, g.spaces) && StandsAt(pdf, i + |g.digits| + |g.spaces|, Rest(g))
  {
    GroupText(g);
    StandsThree(pdf, i, g.digits, g.spaces, Rest(g));
  }

  lemma RestStarts(pdf: Bytes, k: nat, g: Groups)
    requires g.Written() && StandsAt(pdf, k, Rest(g))
    ensures k < |pdf| && !IsSpace(pdf[k]) && (g.more.None? ==> pdf[k] == RBRACKET)
  {
    if g.more.Some? { TextStarts(g.more.value); }
    assert pdf[k] == pdf[k..k + |Rest(g)|][0] == Rest(g)[0];
  }

  /** What stands written is read. */
  lemma {:induction false} GroupsRead(pdf: Bytes, i: nat, g: Groups)
    requires g.Written() && StandsAt(pdf, i, g.Text())
    ensures Signature.Groups(pdf, i, g.Count()) == Some(g.All())
    decreases g
  {
    var e, k := i + |g.digits|, i + |g.digits| + |g.spaces|;
    GroupStands(pdf, i, g);
    RestStarts(pdf, k, g);
    GroupEnds(pdf, i, g.digits, g.spaces);
    GroupsStep(pdf, i, g.Count(), e, k);
    assert pdf[i..e] == g.digits;
    if g.more.Some? {
      GroupsRead(pdf, k, g.more.value);
      assert g.All() == [g.digits] + g.more.value.All();
    } else {
      assert g.All() == [g.digits];
    }
  }

  lemma GroupEnds(pdf: Bytes, i: nat, digits: Bytes, spaces: Bytes)
    requires AllDigits(digits) && AllSpaces(spaces)
    requires StandsAt(pdf, i, digits) && StandsAt(pdf, i + |digits|, spaces)
    requires var k := i + |digits| + |spaces|; k < |pdf| && !IsSpace(pdf[k]) && (|spaces| == 0 ==> !IsDigit(pdf[k]))
    ensures SkipDigits(pdf, i) == i + |digits| && SkipSpaces(pdf, i + |digits|) == i + |digits| + |spaces|
  {
    var e := i + |digits|;
    forall k | i <= k < e ensures IsDigit(pdf[k]) { assert pdf[i..e][k - i] == digits[k - i]; }
    forall k | e <= k < e + |spaces| ensures IsSpace(pdf[k]) { assert pdf[e..e + |spaces|][k - e] == spaces[k - e]; }
    DigitsEnd(pdf, i, e);
    SpacesEnd(pdf, e, e + |spaces|);
  }

  /** Where the matcher succeeds, what its step has skipped. */
  lemma GroupsStepped(pdf: Bytes, i: nat, n: nat)
    requires i <= |pdf| && n > 0 && Signature.Groups(pdf, i, n).Some?
    ensures var e := SkipDigits(pdf, i);
            var k := SkipSpaces(pdf, e);
            && i < e && k < |pdf|
            && if n == 1 then pdf[k] == RBRACKET && Signature.Groups(pdf, i, n).value == [pdf[i..e]]
               else e < k && Signature.Groups(pdf, k, n - 1).Some?
                    && Signature.Groups(pdf, i, n).value == [pdf[i..e]] + Signature.Groups(pdf, k, n - 1).value
  {
    var e := SkipDigits(pdf, i);
    var k := SkipSpaces(pdf, e);
    if n > 1 && k == |pdf| { NothingLeft(pdf, n - 1); }
  }

  lemma NothingLeft(pdf: Bytes, n: nat)
    requires n > 0
    ensures Signature.Groups(pdf, |pdf|, n).None?
  {
  }

  /** What is read stands written. */
  lemma {:induction false} GroupsWritten(pdf: Bytes, i: nat, n: nat) returns (g: Groups)
    requires i <= |pdf| && n > 0 && Signature.Groups(pdf, i, n).Some?
    ensures g.Written() && g.Count() == n && g.All() == Signature.Groups(pdf, i, n).value && StandsAt(pdf, i, g.Text())
    decreases n
  {
    GroupsStepped(pdf, i, n);
    var e := SkipDigits(pdf, i);
    var k := SkipSpaces(pdf, e);
    SkippedAreSpaces(pdf, e);
    if n == 1 {
      g := Groups(pdf[i..e], pdf[e..k], None);
    } else {
      var more := GroupsWritten(pdf, k, n - 1);
      g := Groups(pdf[i..e], pdf[e..k], Some(more));
    }
    GroupIsThere(pdf, i, e, k, g);
  }

  lemma GroupIsThere(pdf: Bytes, i: nat, e: nat, k: nat, g: Groups)
    requires i <= e <= k <= |pdf| && g.digits == pdf[i..e] && g.spaces == pdf[e..k] && StandsAt(pdf, k, Rest(g))
    ensures StandsAt(pdf, i, g.Text())
  {
    GroupStands(pdf, i, g);
  }

  // --- The range ---------------------------------------------------------------------------------

  lemma TextParts(range: Range)
    ensures range.Text() == KEYWORD + (range.afterKey + ([LBRACKET] + (range.afterBracket + range.groups.Text())))
  {
    KeywordIs();
    assert Ascii("[") == [LBRACKET];
  }

  /** A range stands somewhere exactly if its five parts stand one after the other. */
  lemma RangeParts(pdf: Bytes, i: nat, range: Range)
    ensures var j := i + |KEYWORD| + |range.afterKey|;
            StandsAt(pdf, i, range.Text()) <==>
              && StandsAt(pdf, i, KEYWORD) && StandsAt(pdf, i + |KEYWORD|, range.afterKey)
              && StandsAt(pdf, j, [LBRACKET]) && StandsAt(pdf, j + 1, range.afterBracket)
              && StandsAt(pdf, j + 1 + |range.afterBracket|, range.groups.Text())
  {
    var g := range.groups.Text();
    assert range.Text() == KEYWORD + (range.afterKey + ([LBRACKET] + (range.afterBracket + g))) by { TextParts(range); }
    FiveParts(pdf, i, KEYWORD, range.afterKey, [LBRACKET], range.afterBracket, g);
  }

  lemma FiveParts(pdf: Bytes, i: nat, a: Bytes, b: Bytes, c: Bytes, d: Bytes, e: Bytes)
    ensures StandsAt(pdf, i, a + (b + (c + (d + e)))) <==>
              && StandsAt(pdf, i, a) && StandsAt(pdf, i + |a|, b) && StandsAt(pdf, i + |a| + |b|, c)
              && StandsAt(pdf, i + |a| + |b| + |c|, d) && StandsAt(pdf, i + |a| + |b| + |c| + |d|, e)
  {
    StandsThree(pdf, i, a, b, c + (d + e));
    StandsThree(pdf, i + |a| + |b|, c, d, e);
  }

  /** The matcher, once it is known where the white space ends. */
  lemma MatchStep(pdf: Bytes, i: nat, j: nat, k: nat)
    requires i <= |pdf| && KeywordAt(pdf, i) && SkipSpaces(pdf, i + |KEYWORD|) == j
    requires j < |pdf| && pdf[j] == LBRACKET && SkipSpaces(pdf, j + 1) == k
    ensures MatchAt(pdf, i) == Signature.Groups(pdf, k, 4)
  {
    assert MatchAt(pdf, i) == Bracketed(pdf, j);
    BracketStep(pdf, j, k);
  }

  lemma BracketStep(pdf: Bytes, j: nat, k: nat)
    requires j < |pdf| && pdf[j] == LBRACKET && SkipSpaces(pdf, j + 1) == k
    ensures Bracketed(pdf, j) == Signature.Groups(pdf, k, 4)
  {
  }

  lemma RangeRead(pdf: Bytes, i: nat, range: Range)
    requires range.Written() && StandsAt(pdf, i, range.Text())
    ensures MatchAt(pdf, i) == Some(range.groups.All())
  {
    var j := i + |KEYWORD| + |range.afterKey|;
    var k := j + 1 + |range.afterBracket|;
    RangeParts(pdf, i, range);
    SpacesAround(pdf, i + |KEYWORD|, j, k, range);
    MatchStep(pdf, i, j, k);
    GroupsRead(pdf, k, range.groups);
  }

  lemma SpacesAround(pdf: Bytes, e: nat, j: nat, k: nat, range: Range)
    requires range.Written() && j == e + |range.afterKey| && k == j + 1 + |range.afterBracket|
    requires StandsAt(pdf, e, range.afterKey) && StandsAt(pdf, j, [LBRACKET]) && StandsAt(pdf, j + 1, range.afterBracket)
    requires StandsAt(pdf, k, range.groups.Text())
    ensures SkipSpaces(pdf, e) == j && pdf[j] == LBRACKET && SkipSpaces(pdf, j + 1) == k
  {
    TextStarts(range.groups);
    SpacesStand(pdf, e, range.afterKey, [LBRACKET]);
    SpacesStand(pdf, j + 1, range.afterBracket, range.groups.Text());
    assert pdf[j] == pdf[j..j + 1][0] == LBRACKET;
  }

  lemma SpacesStand(pdf: Bytes, i: nat, spaces: Bytes, next: Bytes)
    requires AllSpaces(spaces) && StandsAt(pdf, i, spaces) && StandsAt(pdf, i + |spaces|, next)
    requires |next| > 0 && !IsSpace(next[0])
    ensures SkipSpaces(pdf, i) == i + |spaces|
  {
    var e := i + |spaces|;
    forall k | i <= k < e ensures IsSpace(pdf[k]) { assert pdf[i..e][k - i] == spaces[k - i]; }
    assert pdf[e] == next[0] by { assert pdf[e..e + |next|][0] == next[0]; }
    SpacesEnd(pdf, i, e);
  }

  lemma MatchStepped(pdf: Bytes, i: nat)
    requires i <= |pdf| && MatchAt(pdf, i).Some?
    ensures var e := i + |KEYWORD|;
            && KeywordAt(pdf, i)
            && var j := SkipSpaces(pdf, e);
               && j < |pdf| && pdf[j] == LBRACKET
               && MatchAt(pdf, i) == Signature.Groups(pdf, SkipSpaces(pdf, j + 1), 4)
  {
  }

  lemma RangeWritten(pdf: Bytes, i: nat) returns (range: Range)
    requires i <= |pdf| && MatchAt(pdf, i).Some?
    ensures range.Written() && StandsAt(pdf, i, range.Text()) && MatchAt(pdf, i) == Some(range.groups.All())
  {
    MatchStepped(pdf, i);
    var e := i + |KEYWORD|;
    var j := SkipSpaces(pdf, e);
    var k := SkipSpaces(pdf, j + 1);
    var groups := GroupsWritten(pdf, k, 4);
    range := RangeOf(pdf, i, j, k, groups);
  }

  lemma RangeOf(pdf: Bytes, i: nat, j: nat, k: nat, groups: Groups) returns (range: Range)
    requires i + |KEYWORD| <= j < k <= |pdf| && pdf[i..i + |KEYWORD|] == KEYWORD && pdf[j] == LBRACKET
    requires SkipSpaces(pdf, i + |KEYWORD|) == j && SkipSpaces(pdf, j + 1) == k
    requires groups.Written() && groups.Count() == 4 && StandsAt(pdf, k, groups.Text())
    ensures range.Written() && StandsAt(pdf, i, range.Text()) && range.groups == groups
  {
    range := Range(pdf[i + |KEYWORD|..j], pdf[j + 1..k], groups);
    SkippedAreSpaces(pdf, i + |KEYWORD|);
    SkippedAreSpaces(pdf, j + 1);
    RangeIsThere(pdf, i, j, k, range);
  }

  lemma RangeIsThere(pdf: Bytes, i: nat, j: nat, k: nat, range: Range)
    requires i + |KEYWORD| <= j < k <= |pdf| && pdf[i..i + |KEYWORD|] == KEYWORD && pdf[j] == LBRACKET
    requires range.afterKey == pdf[i + |KEYWORD|..j] && range.afterBracket == pdf[j + 1..k] && StandsAt(pdf, k, range.groups.Text())
    ensures StandsAt(pdf, i, range.Text())
  {
    assert StandsAt(pdf, j, [LBRACKET]);
    assert StandsAt(pdf, i + |KEYWORD|, range.afterKey) && StandsAt(pdf, j + 1, range.afterBracket);
    RangeParts(pdf, i, range);
  }

  ghost predicate RangeStandsAt(pdf: Bytes, i: nat, groups: seq<Bytes>) {
    exists range: Range :: range.Written() && StandsAt(pdf, i, range.Text()) && range.groups.All() == groups
  }

  /** The pattern matches at a place exactly if a range is written there; its groups are the range's. */
  lemma MatchIff(pdf: Bytes, i: nat, groups: seq<Bytes>)
    requires i <= |pdf|
    ensures MatchAt(pdf, i) == Some(groups) <==> RangeStandsAt(pdf, i, groups)
  {
    if MatchAt(pdf, i) == Some(groups) {
      var range := RangeWritten(pdf, i);
    }
    if RangeStandsAt(pdf, i, groups) {
      var range: Range :| range.Written() && StandsAt(pdf, i, range.Text()) && range.groups.All() == groups;
      RangeRead(pdf, i, range);
    }
  }

  /** No match at any place from `i` up to `j`. */
  ghost predicate NoneBefore(pdf: Bytes, i: nat, j: nat)
    requires j <= |pdf|
    decreases j - i
  {
    i < j ==> MatchAt(pdf, i).None? && NoneBefore(pdf, i + 1, j)
  }

  lemma {:induction false} NoneAt(pdf: Bytes, i: nat, j: nat, k: nat)
    requires i <= k < j <= |pdf| && NoneBefore(pdf, i, j)
    ensures MatchAt(pdf, k).None?
    decreases k - i
  {
    if i < k { NoneAt(pdf, i + 1, j, k); }
  }

  lemma {:induction false} NoneStands(pdf: Bytes, i: nat, j: nat)
    requires i <= j <= |pdf| && forall k, groups | i <= k < j :: !RangeStandsAt(pdf, k, groups)
    ensures NoneBefore(pdf, i, j)
    decreases j - i
  {
    if i < j {
      if MatchAt(pdf, i).Some? { MatchIff(pdf, i, MatchAt(pdf, i).value); }
      NoneStands(pdf, i + 1, j);
    }
  }

  lemma {:induction false} FindsFirst(pdf: Bytes, i: nat, j: nat)
    requires i <= j <= |pdf| && MatchAt(pdf, j).Some? && NoneBefore(pdf, i, j)
    ensures FindFrom(pdf, i) == MatchAt(pdf, j)
    decreases j - i
  {
    if i < j { FindsFirst(pdf, i + 1, j); }
  }

  lemma {:induction false} FirstFound(pdf: Bytes, i: nat) returns (j: nat)
    requires i <= |pdf| && FindFrom(pdf, i).Some?
    ensures i <= j <= |pdf| && MatchAt(pdf, j) == FindFrom(pdf, i) && NoneBefore(pdf, i, j)
    decreases |pdf| - i
  {
    if MatchAt(pdf, i).Some? { j := i; } else { j := FirstFound(pdf, i + 1); }
  }

  /** The leftmost range of the PDF, if it has one. */
  ghost predicate Leftmost(pdf: Bytes, i: nat, groups: seq<Bytes>) {
    RangeStandsAt(pdf, i, groups) && forall k, other | 0 <= k < i :: !RangeStandsAt(pdf, k, other)
  }

  /** The groups read are those of the leftmost range written in the PDF, and there are none exactly if
      no range is. */
  lemma FindIff(pdf: Bytes, groups: seq<Bytes>)
    ensures FindFrom(pdf, 0) == Some(groups) <==> exists i :: 0 <= i <= |pdf| && Leftmost(pdf, i, groups)
  {
    if FindFrom(pdf, 0) == Some(groups) {
      var j := FirstFound(pdf, 0);
      MatchIff(pdf, j, groups);
      forall k, other | 0 <= k < j ensures !RangeStandsAt(pdf, k, other) {
        NoneAt(pdf, 0, j, k);
        MatchIff(pdf, k, other);
      }
      assert Leftmost(pdf, j, groups);
    }
    if i :| 0 <= i <= |pdf| && Leftmost(pdf, i, groups) {
      MatchIff(pdf, i, groups);
      NoneStands(pdf, 0, i);
      FindsFirst(pdf, 0, i);
    }
  }

  // --- Printed numbers -------------------------------------------------------------------------------

  function Print(n: nat): Bytes {
    (if n < 10 then [] else Print(n / 10)) + [('0' as int + n % 10) as byte]
  }

  /** The digits denote the number, in decimal, leading zeros allowed. */
  predicate Denotes(digits: Bytes, n: nat)
    decreases |digits|
  {
    if digits == [] then n == 0
    else digits[|digits| - 1] as int == '0' as int + n % 10 && Denotes(digits[..|digits| - 1], n / 10)
  }

  lemma {:induction false} PrintDenotes(n: nat)
    ensures AllDigits(Print(n)) && Denotes(Print(n), n)
    decreases n
  {
    if n < 10 {
      DenotesOneMore([], 0, n);
    } else {
      PrintDenotes(n / 10);
      DenotesOneMore(Print(n / 10), n / 10, n % 10);
    }
  }

  lemma DenotesOneMore(front: Bytes, n: nat, digit: nat)
    requires digit < 10 && Denotes(front, n)
    ensures var digits := front + [('0' as int + digit) as byte];
            Denotes(digits, 10 * n + digit) && (front == [] || AllDigits(front) ==> AllDigits(digits))
  {
    var digits := front + [('0' as int + digit) as byte];
    assert digits[..|digits| - 1] == front;
  }

  lemma {:induction false} DenotedIsRead(digits: Bytes, n: nat)
    requires Denotes(digits, n)
    ensures Decimal(digits) == n
    decreases |digits|
  {
    if digits != [] {
      DenotedIsRead(digits[..|digits| - 1], n / 10);
    }
  }

  /** What the parser makes of four numbers in a file of that size: each must fit a 64-bit signed integer, and
      together they must cover the file from its start to its end, but for one gap. */
  function Verdict(a: nat, b: nat, c: nat, d: nat, size: nat): Result<ByteRange, RangeError> {
    if a > 9223372036854775807 || b > 9223372036854775807 || c > 9223372036854775807 || d > 9223372036854775807 then Err(BadComponent)
    else if a == 0 && b <= c <= size && c + d == size then Ok(ByteRange(a, b, c, d))
    else Err(NotFullCover)
  }

  /** The leftmost range written in the PDF is read as the four numbers its digits denote, and judged by
      them. */
  lemma WrittenRangeIsRead(pdf: Bytes, i: nat, groups: seq<Bytes>, a: nat, b: nat, c: nat, d: nat)
    requires i <= |pdf| && Leftmost(pdf, i, groups) && |groups| == 4
    requires Denotes(groups[0], a) && Denotes(groups[1], b) && Denotes(groups[2], c) && Denotes(groups[3], d)
    ensures Parse(pdf) == Verdict(a, b, c, d, |pdf|)
  {
    FindIff(pdf, groups);
    DenotedIsRead(groups[0], a);
    DenotedIsRead(groups[1], b);
    DenotedIsRead(groups[2], c);
    DenotedIsRead(groups[3], d);
    Judged(groups, |pdf|, a, b, c, d);
  }

  lemma Judged(groups: seq<Bytes>, size: nat, a: nat, b: nat, c: nat, d: nat)
    requires |groups| == 4
    requires Decimal(groups[0]) == a && Decimal(groups[1]) == b && Decimal(groups[2]) == c && Decimal(groups[3]) == d
    ensures Judge(groups, size) == Verdict(a, b, c, d, size)
  {
    assert AllRead(groups) <==> Atoi(groups[0]).Some? && Atoi(groups[1]).Some? && Atoi(groups[2]).Some? && Atoi(groups[3]).Some?;
  }

  /** The read-back: four numbers printed with any white space the pattern allows, at the leftmost place where
      a range is written, are parsed to exactly those numbers, or refused for what they are. */
  lemma PrintedRangeIsRead(pdf: Bytes, i: nat, a: nat, b: nat, c: nat, d: nat)
    requires i <= |pdf| && Leftmost(pdf, i, [Print(a), Print(b), Print(c), Print(d)])
    ensures Parse(pdf) == Verdict(a, b, c, d, |pdf|)
  {
    PrintDenotes(a);
    PrintDenotes(b);
    PrintDenotes(c);
    PrintDenotes(d);
    WrittenRangeIsRead(pdf, i, [Print(a), Print(b), Print(c), Print(d)], a, b, c, d);
  }

  /** And no range is found exactly if none is written. */
  lemma NoRangeIff(pdf: Bytes)
    ensures Parse(pdf) == Err(NoByteRange) <==> forall i, groups | 0 <= i <= |pdf| :: !RangeStandsAt(pdf, i, groups)
  {
    if FindFrom(pdf, 0).Some? {
      var j := FirstFound(pdf, 0);
      MatchIff(pdf, j, FindFrom(pdf, 0).value);
    } else {
      forall i, groups | 0 <= i <= |pdf| ensures !RangeStandsAt(pdf, i, groups) {
        MatchIff(pdf, i, groups);
        NoneFound(pdf, 0, i);
      }
    }
  }

  lemma {:induction false} NoneFound(pdf: Bytes, i: nat, j: nat)
    requires i <= j <= |pdf| && FindFrom(pdf, i).None?
    ensures MatchAt(pdf, j).None?
    decreases j - i
  {
    if i < j { NoneFound(pdf, i + 1, j); }
  }
}
